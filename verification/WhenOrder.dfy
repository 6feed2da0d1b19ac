/** Which rejection reaches the master of `when`: the first one, if nothing alive comes before its listeners. */
module WhenOrder {
  import opened Prelude
  import opened Observers
  import opened Deferred
  import opened DeferredRuns
  import opened DeferredEffects
  import opened Promises
  import opened PromiseShape
  import opened Then
  import opened ThenLive
  import opened ThenLimits
  import opened Countdown
  import opened CountdownSteps
  import opened WhenOutcome

  // ----- what an operation does to the fail side of one Deferred -----

  /** r keeps the due fail observers in front, resolves d, or rejects it and calls the first of them. */
  ghost predicate FailSide(d: Dfd, k: Kind, r: (Dfd, Option<Observer>)) {
    || (StatusOf(r.0) == StatusOf(d) && (StatusOf(d).Waiting? ==> Due(d, Fail) <= Due(r.0, Fail)))
    || (StatusOf(d).Waiting? && StatusOf(r.0).Settled? && StatusOf(r.0).kind == Done)
    || (StatusOf(d).Waiting? && StatusOf(r.0).Settled? && StatusOf(r.0).kind == Fail && k == Fail
      && (Due(d, Fail) != [] ==>
        && r.1 == Some(Due(d, Fail)[0]) && Due(r.0, Fail) == Due(d, Fail)[1..]
        && Argument(r.0, Fail) == StatusOf(r.0).value))
  }

  lemma FireFailSide(d: Dfd, k: Kind, v: Val)
    requires DInv(d)
    ensures FailSide(d, k, FireD(d, k, v))
  {
    FireEffect(d, k, v);
    if k != Progress { SettleDue(d, k, v); }
    assert d.state == Pending <==> StatusOf(d).Waiting?;
    hide DInv, FireD, StatusOf, Due;
  }

  lemma AddFailSide(d: Dfd, k: Kind, o: Observer)
    requires DInv(d)
    ensures FailSide(d, k, AddD(d, k, o))
  {
    AddEffect(d, k, o);
    if k != Progress { AddDue(d, k, o); }
    assert d.state == Pending <==> StatusOf(d).Waiting?;
    hide DInv, AddD, StatusOf, Due;
  }

  lemma FinishedFailSide(d: Dfd, k: Kind)
    requires DInv(d) && Firing(d, k)
    ensures FailSide(d, k, FinishedD(d, k))
  {
    FinishedEffect(d, k);
    if k != Progress { FiringIsSettled(d, k); }
    assert d.state == Pending <==> StatusOf(d).Waiting?;
    hide DInv, FinishedD, StatusOf, Due;
  }

  // ----- one step -----

  /** Deferred p is rejected as the only change; if its first fail observer passes that on, it is about to do so. */
  ghost predicate RejectedNow(w: World, u: World, p: nat)
    requires p < |w.cells| && p < |u.cells|
  {
    && StatusAt(w, p).Waiting? && StatusAt(u, p).Settled? && StatusAt(u, p).kind == Fail
    && (forall i :: 0 <= i < |w.cells| && i != p && i < |u.cells| ==> u.cells[i] == w.cells[i])
    && (var due := Due(w.cells[p].d, Fail); due != [] && due[0].Forward? ==> PassingOn(u, p, due[0], due[1..], StatusAt(u, p).value))
  }

  /** The list of p has just called o, which only forwards v; rest is still due. */
  ghost predicate PassingOn(w: World, p: nat, o: Observer, rest: seq<Observer>, v: Val)
    requires p < |w.cells|
  {
    && o.Forward? && |w.stack| > 1
    && w.stack[0] == Glue([GFire(o.target, o.kind, v)]) && w.stack[1] == InCallback(p, Fail)
    && Due(w.cells[p].d, Fail) == rest
  }

  /** o does nothing: what it settles is settled. */
  predicate Dead(w: World, o: Observer) {
    o.Forward? && StatusAt(w, o.target).Settled?
  }

  /** The listener of master m is due, and only dead observers are due before it. */
  ghost predicate ClearIn(w: World, due: seq<Observer>, m: nat) {
    exists j: nat :: j < |due| && due[j] == Forward(m, Fail) && forall i :: 0 <= i < j ==> Dead(w, due[i])
  }

  ghost predicate Clear(w: World, p: nat, m: nat) {
    p < |w.cells| && ClearIn(w, Due(w.cells[p].d, Fail), m)
  }

  lemma ClearGrows(w: World, u: World, due: seq<Observer>, due1: seq<Observer>, m: nat)
    requires ClearIn(w, due, m) && Grows(w, u) && due <= due1
    ensures ClearIn(u, due1, m)
  {
    hide StatusOf;
    var j: nat :| j < |due| && due[j] == Forward(m, Fail) && forall i :: 0 <= i < j ==> Dead(w, due[i]);
    forall i | 0 <= i < j ensures Dead(u, due1[i]) { assert Dead(w, due[i]); StatusInside(w, due[i].target); }
    assert due1[j] == Forward(m, Fail);
  }

  /** The first observer is the listener, or a dead one before it. */
  lemma ClearHead(w: World, due: seq<Observer>, m: nat)
    requires ClearIn(w, due, m)
    ensures due != [] && due[0].Forward?
    ensures due[0] == Forward(m, Fail) || (Dead(w, due[0]) && ClearIn(w, due[1..], m))
  {
    hide StatusAt;
    var j: nat :| j < |due| && due[j] == Forward(m, Fail) && forall i :: 0 <= i < j ==> Dead(w, due[i]);
    if j > 0 {
      assert due[1..][j - 1] == Forward(m, Fail);
      forall i | 0 <= i < j - 1 ensures Dead(w, due[1..][i]) { assert due[1..][i] == due[i + 1]; }
    }
  }

  ghost predicate SamePrefix(w: World, u: World, p: nat)
    requires p < |w.cells| && p < |u.cells|
  {
    StatusAt(u, p) == StatusAt(w, p) && (StatusAt(w, p).Waiting? ==> Due(w.cells[p].d, Fail) <= Due(u.cells[p].d, Fail))
  }

  ghost predicate CellStep(w: World, u: World, p: nat)
    requires p < |w.cells| && p < |u.cells|
  {
    || SamePrefix(w, u, p)
    || (StatusAt(w, p).Waiting? && StatusAt(u, p).Settled? && StatusAt(u, p).kind == Done)
    || RejectedNow(w, u, p)
  }

  lemma ApplyOnCell(w: World, d: nat, k: Kind, r: (Dfd, Option<Observer>), p: nat)
    requires d < |w.cells| && p < |w.cells| && FailSide(w.cells[d].d, k, r)
    ensures |Apply(w, d, k, r).cells| == |w.cells| && CellStep(w, Apply(w, d, k, r), p)
  {
    hide StatusOf, Due, Argument;
    ApplyFrames(w, d, k, r);
    var u := Apply(w, d, k, r);
    if p == d && StatusAt(w, p).Waiting? && StatusAt(u, p).Settled? && StatusAt(u, p).kind == Fail {
      var due := Due(w.cells[p].d, Fail);
      if due != [] && due[0].Forward? {
        assert u.stack == [Glue([GFire(due[0].target, due[0].kind, Argument(r.0, Fail))])] + ([InCallback(d, k)] + w.stack);
      }
    }
  }

  lemma SameCells(w: World, u: World, p: nat)
    requires p < |w.cells| && p < |u.cells| && u.cells[p] == w.cells[p]
    ensures CellStep(w, u, p)
  {
  }

  lemma FromBelow(w: World, below: World, u: World, p: nat)
    requires p < |w.cells| && p < |u.cells| && below.cells == w.cells && CellStep(below, u, p)
    ensures CellStep(w, u, p)
  {
    hide StatusOf, Due;
  }

  lemma StepOnCell(w: World, c: Choice, p: nat)
    requires Shape(w) && CellsOk(w) && p < |w.cells|
    ensures |w.cells| <= |Step(w, c).cells| && CellStep(w, Step(w, c), p)
  {
    hide DInv, StatusOf, StatusAt, Firing, Due, FireD, AddD, FinishedD, ListsWf, FailSide, CellStep, NewDfd, Apply;
    var u := Step(w, c);
    var below := w.(stack := w.stack[1..]);
    match w.stack[0]
    case InCallback(d, k) =>
      FinishedFailSide(w.cells[d].d, k);
      ApplyOnCell(below, d, k, FinishedD(w.cells[d].d, k), p);
      FromBelow(w, below, u, p);
    case Glue(acts) =>
      if acts == [] { SameCells(w, u, p); }
      else {
        var rest := Push(below, Glue(acts[1..]));
        ActOnCell(rest, acts[0], p);
        assert (forall i :: 0 <= i < |w.cells| ==> DInv(w.cells[i].d));
        FromBelow(w, rest, u, p);
      }
    case UserCode(h) =>
      match c
      case Act(a) => ActionOnCell(w, a, p);
      case Return(ret) => SameCells(w, u, p);
  }

  lemma ActOnCell(w: World, a: Act, p: nat)
    requires (forall i :: 0 <= i < |w.cells| ==> DInv(w.cells[i].d)) && CellsOk(w) && p < |w.cells|
    ensures |DoAct(w, a).cells| == |w.cells| && CellStep(w, DoAct(w, a), p)
  {
    hide DInv, StatusOf, StatusAt, Firing, Due, FireD, AddD, ListsWf, FailSide, CellStep, Apply;
    match a
    case GFire(t, k, v) =>
      if t < |w.cells| {
        FireFailSide(w.cells[t].d, k, v);
        ApplyOnCell(w, t, k, FireD(w.cells[t].d, k, v), p);
      } else { SameCells(w, w, p); }
    case GAdd(d, k, o) =>
      if d < |w.cells| {
        AddFailSide(w.cells[d].d, k, o);
        ApplyOnCell(w, d, k, AddD(w.cells[d].d, k, o), p);
      } else { SameCells(w, w, p); }
    case GVisit(x, i) => SameCells(w, DoAct(w, a), p);
  }

  lemma ActionOnCell(w: World, a: Action, p: nat)
    requires Shape(w) && CellsOk(w) && p < |w.cells|
    ensures |w.cells| <= |DoAction(w, a).cells| && CellStep(w, DoAction(w, a), p)
  {
    hide DInv, StatusOf, StatusAt, Firing, Due, FireD, AddD, ListsWf, FailSide, CellStep, NewDfd, Apply;
    var u := DoAction(w, a);
    match a
    case Settle(d, k, v) =>
      if d < |w.cells| && w.cells[d].origin == Public {
        FireFailSide(w.cells[d].d, k, v);
        ApplyOnCell(w, d, k, FireD(w.cells[d].d, k, v), p);
      } else { SameCells(w, u, p); }
    case Listen(d, k, n) =>
      if d < |w.cells| {
        AddFailSide(w.cells[d].d, k, User(n));
        ApplyOnCell(w, d, k, AddD(w.cells[d].d, k, User(n)), p);
      } else { SameCells(w, u, p); }
    case _ => SameCells(w, u, p);
  }

  // ----- nothing alive comes before the listeners of `when` -----

  ghost predicate NoneLost(w: World, x: nat) {
    x < |w.whens| ==> forall a :: a in w.whens[x].args ==> !Lost(w, a)
  }

  ghost predicate ReadyAt(w: World, a: Arg, m: nat) {
    a.Promise? ==>
      && a.id < |w.cells|
      && if StatusAt(w, a.id).Waiting? then Clear(w, a.id, m) else StatusAt(w, a.id).kind == Done
  }

  /** No promise of call x is rejected, and on the pending ones only dead fail observers precede the listener of `when`. */
  ghost predicate Ready(w: World, x: nat) {
    x < |w.whens| && forall a :: a in w.whens[x].args ==> ReadyAt(w, a, w.whens[x].master)
  }

  /** Library code is running that rejects the pending master m with v, the rejection of p. */
  ghost predicate Striking(w: World, p: nat, m: nat, v: Val) {
    && m < |w.cells| && p < |w.cells| && StatusAt(w, m).Waiting? && StatusAt(w, p) == Settled(Fail, v) && w.stack != []
    && (|| w.stack[0] == Glue([GFire(m, Fail, v)])
        || (w.stack[0] == InCallback(p, Fail) && Clear(w, p, m))
        || (|w.stack| > 1 && IdleGlue(w, w.stack[0]) && w.stack[1] == InCallback(p, Fail) && Clear(w, p, m)))
  }

  /** Nothing left to do, or only a settlement of something settled. */
  ghost predicate IdleGlue(w: World, f: Frame) {
    f.Glue? && (f.acts == [] || (|f.acts| == 1 && f.acts[0].GFire? && StatusAt(w, f.acts[0].target).Settled?))
  }

  ghost predicate Struck(w: World, p: nat, m: nat, v: Val) {
    StatusAt(w, m) == Settled(Fail, v) || Striking(w, p, m, v)
  }

  /** While an argument is pending and none is rejected, so is the master. */
  lemma MasterWaits(w: World, x: nat, a: Arg)
    requires WhenInv(w) && NoneLost(w, x) && x < |w.whens| && a in w.whens[x].args && a.Promise? && StatusAt(w, a.id).Waiting?
    ensures w.whens[x].master < |w.cells| && StatusAt(w, w.whens[x].master).Waiting?
  {
    InvRecord(w, x);
    var m := w.whens[x].master;
    assert WCellOk(w, m);
    hide StatusOf, StatusAt, WhenInv;
    var i :| 0 <= i < |w.whens[x].args| && w.whens[x].args[i] == a;
    if StatusAt(w, m).Settled? {
      var v := StatusAt(w, m).value;
      if StatusAt(w, m).kind == Done { ResolvedMeans(w, x, i, v); } else { SomeIsLost(w, x, v); }
    }
  }

  lemma SomeIsLost(w: World, x: nat, v: Val)
    requires SomeRejected(w, x, v)
    ensures !NoneLost(w, x)
  {
    hide StatusAt;
    var b :| b in w.whens[x].args && RejectedWith(w, b, v);
    assert Lost(w, b);
  }

  lemma ReadyNoneLost(w: World, x: nat)
    requires Ready(w, x)
    ensures NoneLost(w, x)
  {
    hide StatusAt, Clear;
    forall a | a in w.whens[x].args ensures !Lost(w, a) { assert ReadyAt(w, a, w.whens[x].master); }
  }

  /** One argument: still ready, or rejected by this step. */
  lemma ArgStep(w: World, c: Choice, a: Arg, m: nat)
    requires Shape(w) && CellsOk(w) && ReadyAt(w, a, m)
    ensures ReadyAt(Step(w, c), a, m) || (a.Promise? && a.id < |w.cells| <= |Step(w, c).cells| && RejectedNow(w, Step(w, c), a.id))
  {
    if a.Promise? { StepOnCell(w, c, a.id); StepShape(w, c); }
    hide StatusOf, StatusAt, Shape, CellsOk, Step, Due, ClearIn, RejectedNow;
    if a.Promise? && SamePrefix(w, Step(w, c), a.id) && StatusAt(w, a.id).Waiting? {
      ClearGrows(w, Step(w, c), Due(w.cells[a.id].d, Fail), Due(Step(w, c).cells[a.id].d, Fail), m);
    }
  }

  /** The first rejection is on its way to the master. */
  lemma StepStrikes(w: World, c: Choice, x: nat, p: nat)
    requires Shape(w) && CellsOk(w) && WhenInv(w) && Ready(w, x) && Promise(p) in w.whens[x].args
    requires p < |w.cells| <= |Step(w, c).cells| && RejectedNow(w, Step(w, c), p)
    ensures Struck(Step(w, c), p, w.whens[x].master, StatusAt(Step(w, c), p).value)
  {
    var m := w.whens[x].master;
    ReadyNoneLost(w, x);
    MasterWaits(w, x, Promise(p));
    assert ReadyAt(w, Promise(p), m);
    StepShape(w, c);
    ClearHead(w, Due(w.cells[p].d, Fail), m);
    hide StatusOf, Shape, CellsOk, Step, Due, WhenInv, Ready, ClearIn;
    var u := Step(w, c);
    if m != p {
      assert u.cells[m] == w.cells[m];
      PassedOn(w, u, Due(w.cells[p].d, Fail), p, m, StatusAt(u, p).value);
    }
  }

  /** One step of the list of p towards the listener of m. */
  lemma StepStriking(w: World, c: Choice, p: nat, m: nat, v: Val)
    requires Shape(w) && CellsOk(w) && Striking(w, p, m, v)
    ensures Struck(Step(w, c), p, m, v)
  {
    hide StatusOf, StatusAt, Due, ListsWf, ClearIn, Step, DInv, Struck;
    if w.stack[0] == Glue([GFire(m, Fail, v)]) { StrikesNow(w, c, p, m, v); }
    else if w.stack[0] == InCallback(p, Fail) { NextCallback(w, c, p, m, v); }
    else { IdleStep(w, c, p, m, v); }
  }

  lemma StrikesNow(w: World, c: Choice, p: nat, m: nat, v: Val)
    requires Shape(w) && CellsOk(w) && m < |w.cells| && StatusAt(w, m).Waiting?
    requires w.stack != [] && w.stack[0] == Glue([GFire(m, Fail, v)])
    ensures Struck(Step(w, c), p, m, v)
  {
    hide DInv, StatusOf, FireD, AddD, FinishedD, ListsWf, Firing;
    var rest := Push(w.(stack := w.stack[1..]), Glue([]));
    assert [GFire(m, Fail, v)][1..] == [];
    FireTraffic(w.cells[m].d, Fail, v);
    ApplyFrames(rest, m, Fail, FireD(w.cells[m].d, Fail, v));
  }

  lemma NextCallback(w: World, c: Choice, p: nat, m: nat, v: Val)
    requires Shape(w) && CellsOk(w) && m < |w.cells| && p < |w.cells| && StatusAt(w, m).Waiting? && StatusAt(w, p) == Settled(Fail, v)
    requires w.stack[0] == InCallback(p, Fail) && Clear(w, p, m)
    ensures Struck(Step(w, c), p, m, v)
  {
    ListCalls(w, c, p, v) by { ClearHead(w, Due(w.cells[p].d, Fail), m); }
    StepShape(w, c);
    hide StatusOf, Due, ClearIn, Shape, CellsOk, Step;
    PassedOn(w, Step(w, c), Due(w.cells[p].d, Fail), p, m, v);
  }

  lemma PassedOn(w: World, u: World, due: seq<Observer>, p: nat, m: nat, v: Val)
    requires Grows(w, u) && ClearIn(w, due, m) && due != []
    requires p < |u.cells| && StatusAt(u, p) == Settled(Fail, v) && m < |u.cells| && StatusAt(u, m).Waiting?
    requires PassingOn(u, p, due[0], due[1..], v)
    ensures Striking(u, p, m, v)
  {
    hide StatusOf, Due, ClearIn;
    ClearHead(w, due, m);
    if due[0] != Forward(m, Fail) {
      StatusInside(w, due[0].target);
      ClearGrows(w, u, due[1..], due[1..], m);
    }
  }

  /** The fail list of p goes on to its next due observer, which only forwards. */
  lemma ListCalls(w: World, c: Choice, p: nat, v: Val)
    requires Shape(w) && CellsOk(w) && p < |w.cells| && StatusAt(w, p) == Settled(Fail, v) && w.stack[0] == InCallback(p, Fail)
    requires Due(w.cells[p].d, Fail) != [] && Due(w.cells[p].d, Fail)[0].Forward?
    ensures var u := Step(w, c); var due := Due(w.cells[p].d, Fail);
      && |u.cells| == |w.cells| && PassingOn(u, p, due[0], due[1..], v) && StatusAt(u, p) == Settled(Fail, v)
      && (forall i :: 0 <= i < |w.cells| && i != p ==> u.cells[i] == w.cells[i])
  {
    var D := w.cells[p].d;
    var due := Due(D, Fail);
    var u := Step(w, c);
    FinishedEffect(D, Fail);
    FinishedDue(D, Fail);
    hide DInv, StatusOf, FinishedD, ListsWf, Firing, Due, Shape, Argument;
    var r := FinishedD(D, Fail);
    assert u.cells == w.cells[p := w.cells[p].(d := r.0)];
    assert u.stack == [Glue([GFire(due[0].target, due[0].kind, Argument(r.0, Fail))])] + ([InCallback(p, Fail)] + w.stack[1..]);
  }

  lemma IdleStep(w: World, c: Choice, p: nat, m: nat, v: Val)
    requires Shape(w) && CellsOk(w) && m < |w.cells| && p < |w.cells| && StatusAt(w, m).Waiting? && StatusAt(w, p) == Settled(Fail, v)
    requires |w.stack| > 1 && IdleGlue(w, w.stack[0]) && w.stack[1] == InCallback(p, Fail) && Clear(w, p, m)
    ensures Struck(Step(w, c), p, m, v)
  {
    var u := Step(w, c);
    IdleWorld(w, c);
    hide DInv, StatusOf, ListsWf, Due, Shape, Step, CellsOk;
    assert Clear(u, p, m) by { ClearSame(w, u, Due(w.cells[p].d, Fail), m); }
  }

  lemma IdleWorld(w: World, c: Choice)
    requires Shape(w) && CellsOk(w) && |w.stack| > 1 && IdleGlue(w, w.stack[0])
    ensures Step(w, c) == w.(stack := if w.stack[0].acts == [] then w.stack[1..] else [Glue([])] + w.stack[1..])
  {
    if w.stack[0].acts != [] {
      var a := w.stack[0].acts[0];
      assert w.stack[0].acts[1..] == [];
      StatusInside(w, a.target);
      FireSettled(w.cells[a.target].d, a.kind, a.arg);
      assert w.cells[a.target := w.cells[a.target].(d := w.cells[a.target].d)] == w.cells;
    }
    hide FireD, DInv, ListsWf, StatusOf;
  }

  lemma ClearSame(w: World, u: World, due: seq<Observer>, m: nat)
    requires ClearIn(w, due, m) && u.cells == w.cells
    ensures ClearIn(u, due, m)
  {
    hide StatusOf;
    var j: nat :| j < |due| && due[j] == Forward(m, Fail) && forall i :: 0 <= i < j ==> Dead(w, due[i]);
    forall i | 0 <= i < j ensures Dead(u, due[i]) { assert Dead(w, due[i]); }
  }

  lemma StepStruck(w: World, c: Choice, p: nat, m: nat, v: Val)
    requires Shape(w) && CellsOk(w) && Struck(w, p, m, v)
    ensures Struck(Step(w, c), p, m, v)
  {
    hide StatusOf, Striking, Shape, CellsOk;
    if StatusAt(w, m) == Settled(Fail, v) { StepShape(w, c); StatusInside(w, m); }
    else { StepStriking(w, c, p, m, v); }
  }

  /** A step keeps the call ready, or rejects one of its promises. */
  lemma StepReady(w: World, c: Choice, x: nat)
    requires Shape(w) && CellsOk(w) && WhenInv(w) && Ready(w, x)
    ensures Ready(Step(w, c), x) || !NoneLost(Step(w, c), x)
  {
    StepShape(w, c);
    hide StatusOf, StatusAt, Shape, CellsOk, Step, Due, WhenInv, ReadyAt, RejectedNow;
    var u := Step(w, c);
    var m := w.whens[x].master;
    if NoneLost(u, x) {
      forall a | a in u.whens[x].args ensures ReadyAt(u, a, m) {
        assert ReadyAt(w, a, m);
        ArgStep(w, c, a, m);
        if !ReadyAt(u, a, m) { NowLost(w, u, a); }
      }
    }
  }

  lemma NowLost(w: World, u: World, a: Arg)
    requires a.Promise? && a.id < |w.cells| <= |u.cells| && RejectedNow(w, u, a.id)
    ensures Lost(u, a)
  {
  }

  lemma LostStays(w: World, u: World, x: nat)
    requires Grows(w, u) && x < |w.whens| && !NoneLost(w, x)
    ensures !NoneLost(u, x)
  {
    hide StatusOf;
    var a :| a in w.whens[x].args && Lost(w, a);
    StatusInside(w, a.id);
    assert Lost(u, a);
  }

  lemma {:induction false} ReadyMeanwhile(w: World, x: nat, choices: seq<Choice>)
    requires AllGood(w) && Ready(w, x) && NoneLost(Run(w, choices), x)
    ensures Ready(Run(w, choices), x)
    decreases |choices|
  {
    if choices != [] {
      var c := choices[0];
      StepAllGood(w, c);
      RunAllGood(Step(w, c), choices[1..]);
      hide AllGood, Ready, Step, NoneLost, Grows;
      StaysReady(w, c, x, Run(w, choices));
      ReadyMeanwhile(Step(w, c), x, choices[1..]);
    }
  }

  /** Unless something is rejected by the time of u. */
  lemma StaysReady(w: World, c: Choice, x: nat, u: World)
    requires AllGood(w) && Ready(w, x) && Grows(Step(w, c), u) && NoneLost(u, x)
    ensures Ready(Step(w, c), x)
  {
    StepReady(w, c, x);
    RecordsStay(w, c, x);
    hide AllGood, Ready, Step, NoneLost, Grows;
    if !NoneLost(Step(w, c), x) { LostStays(Step(w, c), u, x); }
  }

  lemma RecordsStay(w: World, c: Choice, x: nat)
    requires AllGood(w) && Ready(w, x)
    ensures x < |Step(w, c).whens|
  {
    hide Shape, CellsOk, ThenInv, WhenInv, AllTokens, WhenLive, Step;
    StepShape(w, c);
  }

  lemma StepAllGood(w: World, c: Choice)
    requires AllGood(w)
    ensures CellsOk(w) && AllGood(Step(w, c)) && Grows(w, Step(w, c))
  {
    hide Shape, ThenInv, WhenInv, AllTokens, WhenLive, StatusAt, Step, Run, CellsOk;
    StepCellsOk(w, c);
    StepShape(w, c);
    StepThen(w, c);
    StepWhen(w, c);
    StepWhenLive(w, c);
  }

  /** In the continuation `after` of w, choice k is the one that first rejects a promise of call x: p, with v. */
  ghost predicate FirstToFail(w: World, x: nat, after: seq<Choice>, k: nat, p: nat, v: Val)
    requires CellsOk(w)
  {
    && x < |w.whens| && k < |after| && Promise(p) in w.whens[x].args
    && NoneLost(Run(w, after[..k]), x)
    && StatusAt(Run(w, after[..k + 1]), p) == Settled(Fail, v)
  }

  /**
   From a ready state on, in every continuation: once the promise whose rejection is
   the first of all has been rejected, the master has its rejection for good, or
   library code is just running that passes it on.
   */
  lemma ReadyFirstWins(w: World, x: nat, after: seq<Choice>, k: nat, p: nat, v: Val)
    requires AllGood(w) && Ready(w, x) && FirstToFail(w, x, after, k, p, v)
    ensures Struck(Run(w, after), p, w.whens[x].master, v)
  {
    var w2 := StruckAfter(w, x, after, k, p, v);
    assert CellsOk(w);
    hide AllGood, Ready, FirstToFail, Struck, Run, StatusAt, Step, CellsOk;
    SplitRun(w, after, k + 1);
    StruckForGood(w2, after[k + 1..], p, w.whens[x].master, v);
  }

  lemma SplitRun(w: World, after: seq<Choice>, n: nat)
    requires CellsOk(w) && n <= |after|
    ensures Run(w, after) == Run(Run(w, after[..n]), after[n..])
  {
    hide CellsOk, Run;
    RunAppend(w, after[..n], after[n..]);
    assert after == after[..n] + after[n..];
  }

  lemma StruckAfter(w: World, x: nat, after: seq<Choice>, k: nat, p: nat, v: Val) returns (w2: World)
    requires AllGood(w) && Ready(w, x) && FirstToFail(w, x, after, k, p, v)
    ensures k < |after| && x < |w.whens| && w2 == Run(w, after[..k + 1])
    ensures AllGood(w2) && Struck(w2, p, w.whens[x].master, v)
  {
    assert k < |after|;
    var some := after[..k];
    w2 := Run(w, after[..k + 1]);
    RunAllGood(w, after[..k + 1]);
    LastChoice(w, after, k);
    RunAllGood(w, some);
    ReadyMeanwhile(w, x, some);
    hide Shape, ThenInv, AllTokens, WhenLive, CellsOk, WhenInv, Step, StatusAt, StatusOf, Run, Struck, Ready, Grows;
    assert WhenInv(Run(w, some)) && Shape(Run(w, some)) && CellsOk(Run(w, some));
    hide AllGood;
    StrikeNow(Run(w, some), after[k], x, p, v);
  }

  lemma LastChoice(w: World, after: seq<Choice>, k: nat)
    requires CellsOk(w) && k < |after|
    ensures Run(w, after[..k + 1]) == Step(Run(w, after[..k]), after[k])
  {
    hide CellsOk, Run, Step;
    assert after[..k + 1] == after[..k] + [after[k]];
    RunSnoc(w, after[..k], after[k]);
  }

  lemma {:induction false} StruckForGood(w: World, more: seq<Choice>, p: nat, m: nat, v: Val)
    requires AllGood(w) && Struck(w, p, m, v)
    ensures Struck(Run(w, more), p, m, v)
    decreases |more|
  {
    if more != [] {
      StepAllGood(w, more[0]);
      StepStruck(w, more[0], p, m, v);
      hide AllGood, Shape, Step, StatusAt, StatusOf, Struck;
      StruckForGood(Step(w, more[0]), more[1..], p, m, v);
    }
  }

  lemma StrikeNow(w: World, c: Choice, x: nat, p: nat, v: Val)
    requires Shape(w) && CellsOk(w) && WhenInv(w) && Ready(w, x) && Promise(p) in w.whens[x].args
    requires StatusAt(Step(w, c), p) == Settled(Fail, v)
    ensures Struck(Step(w, c), p, w.whens[x].master, v)
  {
    var m := w.whens[x].master;
    assert ReadyAt(w, Promise(p), m);
    ArgStep(w, c, Promise(p), m);
    hide Shape, CellsOk, WhenInv, Step, StatusAt, StatusOf, Ready, Struck;
    if RejectedNow(w, Step(w, c), p) { StepStrikes(w, c, x, p); }
  }
}
