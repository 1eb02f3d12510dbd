/** What each outcome of a turn request says of its own way, and where the turns of a Run come from (api.py:2248-2381,
    store.py:2933-3012). */
module TurnOutcomes {
  import opened TurnPinning

  /** What happened to one request, in order. */
  function InputsOf(steps: seq<(nat, Input)>, t: nat): seq<Input> {
    if steps == [] then []
    else (if steps[0].0 == t then [steps[0].1] else []) + InputsOf(steps[1..], t)
  }

  /** The way to a stage: the Run was found, the lock taken, the selection checked, the provider available and asked; a
      turn is recorded or discarded only under an answer for the very model that was asked for. */
  predicate Way(e: Setup, t: nat, s: Stage, inputs: seq<Input>)
    requires t < |e.requests|
  {
    var model := e.requests[t].model;
    match s
    case Arrived => inputs == []
    case Waiting => inputs == [Found(true)] && e.parse(model).Some?
    case Holding => inputs == [Found(true), Acquire] && e.parse(model).Some?
    case Selected => inputs == [Found(true), Acquire, Check] && e.parse(model).Some?
    case Calling => inputs == [Found(true), Acquire, Check, Gate(true)] && e.parse(model).Some?
    case Answered(p) =>
      inputs == [Found(true), Acquire, Check, Gate(true), Answer(Some(Selection(p, model)))] && e.parse(model).Some?
    case Done(NotFound) => inputs == [Found(false)]
    case Done(Malformed) => inputs == [Found(true)] && e.parse(model).None?
    case Done(SelectionLocked) => inputs == [Found(true), Acquire, Check] && e.parse(model).Some?
    case Done(Unavailable) => inputs == [Found(true), Acquire, Check, Gate(false)] && e.parse(model).Some?
    case Done(CallFailed) => inputs == [Found(true), Acquire, Check, Gate(true), Answer(None)] && e.parse(model).Some?
    case Done(WrongModel) =>
      && |inputs| == 5 && inputs[..4] == [Found(true), Acquire, Check, Gate(true)] && e.parse(model).Some?
      && inputs[4].Answer? && inputs[4].reported.Some? && inputs[4].reported.value.model != model
    case Done(Discarded(p)) =>
      && inputs == [Found(true), Acquire, Check, Gate(true), Answer(Some(Selection(p, model))), Store]
      && e.parse(model).Some?
    case Done(Recorded) =>
      && |inputs| == 6 && inputs[..4] == [Found(true), Acquire, Check, Gate(true)] && inputs[5] == Store
      && e.parse(model).Some? && inputs[4].Answer? && inputs[4].reported.Some?
      && inputs[4].reported.value.model == model
  }

  lemma StepWay(e: Setup, w: World, u: nat, i: Input, t: nat, past: seq<Input>)
    requires Enabled(e, w, u, i) && t < |e.requests| && Way(e, t, w.stages[t], past)
    ensures |Next(e, w, u, i).stages| == |e.requests|
    ensures Way(e, t, Next(e, w, u, i).stages[t], past + (if u == t then [i] else []))
  {
    if u != t { assert past + [] == past; }
  }

  lemma {:induction false} WayFrom(e: Setup, w: World, steps: seq<(nat, Input)>, t: nat, past: seq<Input>)
    requires Possible(e, w, steps) && t < |e.requests| == |w.stages| && Way(e, t, w.stages[t], past)
    ensures |After(e, w, steps).stages| == |e.requests|
    ensures Way(e, t, After(e, w, steps).stages[t], past + InputsOf(steps, t))
    decreases |steps|
  {
    hide Way, Enabled, Next;
    if steps == [] {
      assert past + [] == past;
    } else {
      var own := if steps[0].0 == t then [steps[0].1] else [];
      StepWay(e, w, steps[0].0, steps[0].1, t, past);
      WayFrom(e, Next(e, w, steps[0].0, steps[0].1), steps[1..], t, past + own);
      assert past + own + InputsOf(steps[1..], t) == past + (own + InputsOf(steps[1..], t));
    }
  }

  /** In every interleaving each request went exactly the way that its stage or its outcome says. */
  lemma EveryOutcomeWasEarned(e: Setup, turns: map<RunId, seq<Selection>>, steps: seq<(nat, Input)>, t: nat)
    requires Possible(e, Start(e, turns), steps) && t < |e.requests|
    ensures |After(e, Start(e, turns), steps).stages| == |e.requests|
    ensures Way(e, t, After(e, Start(e, turns), steps).stages[t], InputsOf(steps, t))
  {
    WayFrom(e, Start(e, turns), steps, t, []);
    assert [] + InputsOf(steps, t) == InputsOf(steps, t);
  }

  // ----- where turns come from -----

  /** The requests on a Run that recorded a turn. */
  function Recorders(e: Setup, w: World, r: RunId): set<nat> {
    set t: nat | t < |e.requests| && t < |w.stages| && e.requests[t].run == r && w.stages[t] == Done(Recorded)
  }

  /** This request recorded this turn: it is on the Run, and was answered with this very selection. */
  predicate RecordedAs(e: Setup, w: World, r: RunId, t: nat, inputs: seq<Input>, turn: Selection) {
    t in Recorders(e, w, r) && Answer(Some(turn)) in inputs
  }

  /** Some request on the Run recorded this turn in the course of these steps. */
  ghost predicate Told(e: Setup, w: World, r: RunId, steps: seq<(nat, Input)>, turn: Selection) {
    exists t :: RecordedAs(e, w, r, t, InputsOf(steps, t), turn)
  }

  lemma EnabledBound(e: Setup, w: World, u: nat, i: Input)
    requires Enabled(e, w, u, i)
    ensures u < |e.requests| == |w.stages| && !w.stages[u].Done? && |Next(e, w, u, i).stages| == |e.requests|
    ensures forall t: nat :: t < |e.requests| && t != u ==> Next(e, w, u, i).stages[t] == w.stages[t]
  {}

  lemma RecordersAre(e: Setup, w: World, u: nat, i: Input, r: RunId)
    requires Enabled(e, w, u, i)
    ensures
      var v := Next(e, w, u, i);
      && u !in Recorders(e, w, r)
      && Recorders(e, v, r) == Recorders(e, w, r)
           + if v.stages[u] == Done(Recorded) && e.requests[u].run == r then {u} else {}
  {
    hide Enabled, Next;
    EnabledBound(e, w, u, i);
  }

  lemma TurnsAre(e: Setup, w: World, u: nat, i: Input, r: RunId)
    requires Enabled(e, w, u, i)
    ensures
      var v := Next(e, w, u, i);
      |Turns(v, r)| == |Turns(w, r)| + if v.stages[u] == Done(Recorded) && e.requests[u].run == r then 1 else 0
  {}

  lemma StepRecorders(e: Setup, w: World, u: nat, i: Input, r: RunId)
    requires Enabled(e, w, u, i)
    ensures Recorders(e, w, r) <= Recorders(e, Next(e, w, u, i), r)
    ensures |Turns(Next(e, w, u, i), r)| - |Turns(w, r)| == |Recorders(e, Next(e, w, u, i), r)| - |Recorders(e, w, r)|
  {
    hide Enabled, Next, Recorders, Turns;
    RecordersAre(e, w, u, i, r);
    TurnsAre(e, w, u, i, r);
  }

  lemma StepTurns(e: Setup, w: World, u: nat, i: Input, r: RunId, past: seq<Input>)
    requires Enabled(e, w, u, i) && Way(e, u, w.stages[u], past)
    ensures Turns(w, r) <= Turns(Next(e, w, u, i), r)
    ensures |Turns(Next(e, w, u, i), r)| <= |Turns(w, r)| + 1
    ensures |Turns(Next(e, w, u, i), r)| > |Turns(w, r)| ==>
              RecordedAs(e, Next(e, w, u, i), r, u, past, Turns(Next(e, w, u, i), r)[|Turns(w, r)|])
  {
    if i.Store? { assert Answer(Some(Selection(w.stages[u].reported, e.requests[u].model))) == past[4]; }
  }

  lemma {:induction false} TurnsFrom(e: Setup, w: World, steps: seq<(nat, Input)>, before: seq<(nat, Input)>, r: RunId)
    requires Possible(e, w, steps) && |w.stages| == |e.requests|
    requires forall t: nat :: t < |e.requests| ==> Way(e, t, w.stages[t], InputsOf(before, t))
    ensures |After(e, w, steps).stages| == |e.requests| && Turns(w, r) <= Turns(After(e, w, steps), r)
    ensures Recorders(e, w, r) <= Recorders(e, After(e, w, steps), r)
    ensures |Turns(After(e, w, steps), r)| - |Turns(w, r)|
            == |Recorders(e, After(e, w, steps), r)| - |Recorders(e, w, r)|
    ensures
      var v := After(e, w, steps);
      forall k :: |Turns(w, r)| <= k < |Turns(v, r)| ==> Told(e, v, r, before + steps, Turns(v, r)[k])
    decreases |steps|
  {
    hide Way, Enabled, Next, Recorders, RecordedAs, Told, Turns;
    EnabledBoundIf(e, w, steps);
    if steps != [] {
      var (u, i) := steps[0];
      var x, v, grown := Next(e, w, u, i), After(e, w, steps), before + [steps[0]];
      forall t: nat | t < |e.requests| ensures |x.stages| == |e.requests| && Way(e, t, x.stages[t], InputsOf(grown, t)) {
        StepWay(e, w, u, i, t, InputsOf(before, t));
        InputsSnoc(before, steps[0], t);
      }
      TurnsFrom(e, x, steps[1..], grown, r);
      StepRecorders(e, w, u, i, r);
      StepTurns(e, w, u, i, r, InputsOf(before, u));
      assert before + steps == grown + steps[1..];
      forall k | |Turns(w, r)| <= k < |Turns(v, r)|
        ensures Told(e, v, r, before + steps, Turns(v, r)[k])
      {
        if k < |Turns(x, r)| {
          RecordedStays(e, x, v, r, u, before, steps, Turns(x, r)[k]);
        }
      }
    }
  }

  lemma EnabledBoundIf(e: Setup, w: World, steps: seq<(nat, Input)>)
    requires Possible(e, w, steps)
    ensures
      steps != [] ==>
        var (u, i) := steps[0];
        Enabled(e, w, u, i) && u < |e.requests| == |w.stages| && |Next(e, w, u, i).stages| == |e.requests|
  {
    if steps != [] { EnabledBound(e, w, steps[0].0, steps[0].1); }
  }

  lemma RecordedStays(e: Setup, x: World, v: World, r: RunId, u: nat, before: seq<(nat, Input)>,
                      steps: seq<(nat, Input)>, turn: Selection)
    requires RecordedAs(e, x, r, u, InputsOf(before, u), turn) && Recorders(e, x, r) <= Recorders(e, v, r)
    ensures Told(e, v, r, before + steps, turn)
  {
    InputsJoin(before, steps, u);
    assert RecordedAs(e, v, r, u, InputsOf(before + steps, u), turn);
  }

  lemma InputsFirst(steps: seq<(nat, Input)>, t: nat)
    requires steps != []
    ensures InputsOf(steps, t) == (if steps[0].0 == t then [steps[0].1] else []) + InputsOf(steps[1..], t)
  {}

  lemma {:induction false} InputsJoin(a: seq<(nat, Input)>, b: seq<(nat, Input)>, t: nat)
    ensures InputsOf(a + b, t) == InputsOf(a, t) + InputsOf(b, t)
  {
    if a == [] {
      assert a + b == b && InputsOf([], t) == [];
    } else {
      InputsFirst(a, t);
      InputsFirst(a + b, t);
      InputsJoin(a[1..], b, t);
      hide InputsOf;
      assert (a + b)[0] == a[0] && (a + b)[1..] == a[1..] + b;
    }
  }

  lemma InputsSnoc(a: seq<(nat, Input)>, x: (nat, Input), t: nat)
    ensures InputsOf(a + [x], t) == InputsOf(a, t) + (if x.0 == t then [x.1] else [])
  {
    InputsJoin(a, [x], t);
    assert [x][1..] == [];
  }

  /** In every interleaving the turns of a Run are those it had and one more for each request that recorded one: none is
      lost or made up, and each is the very answer that some recording request of that Run was given. */
  lemma TurnsAreAnswers(e: Setup, turns: map<RunId, seq<Selection>>, steps: seq<(nat, Input)>, r: RunId)
    requires Possible(e, Start(e, turns), steps)
    ensures
      var w, v := Start(e, turns), After(e, Start(e, turns), steps);
      && Turns(w, r) <= Turns(v, r)
      && |Turns(v, r)| == |Turns(w, r)| + |Recorders(e, v, r)|
      && forall k :: |Turns(w, r)| <= k < |Turns(v, r)| ==> Told(e, v, r, steps, Turns(v, r)[k])
  {
    TurnsFrom(e, Start(e, turns), steps, [], r);
    assert [] + steps == steps;
    assert Recorders(e, Start(e, turns), r) == {};
  }
}
