/** Exactly which stages always behave as the fold: those without a progress handler. */
module ThenLimits {
  import opened Prelude
  import CallbackList
  import opened Observers
  import opened Deferred
  import opened DeferredRuns
  import opened DeferredEffects
  import opened Promises
  import opened PromiseShape
  import opened Then
  import opened ThenLive
  import opened ThenChains

  /** A pending Deferred with one progress observer, never notified. */
  ghost predicate OneListener(d: Dfd, o: Observer) {
    && DInv(d) && d.state == Pending
    && d.progress.added == [o]
    && Idle(d.progress.list) && !d.progress.list.fired && d.progress.list.memory.None?
  }

  /** Registering first on done and fail and then on progress, as `then` does. */
  lemma ThreeAdds(o1: Observer, o2: Observer, o3: Observer)
    ensures var a := AddD(NewDfd(), Done, o1);
      var b := AddD(a.0, Fail, o2);
      var c := AddD(b.0, Progress, o3);
      && a.1 == None && b.1 == None && c.1 == None
      && OneListener(c.0, o3)
      && Due(c.0, Done) == [o1]
  {
    NewDfdInv();
    var a := AddD(NewDfd(), Done, o1);
    AddEffect(NewDfd(), Done, o1);
    AddDue(NewDfd(), Done, o1);
    AddWaiting(NewDfd(), Done, o1);
    var b := AddD(a.0, Fail, o2);
    AddEffect(a.0, Fail, o2);
    AddDue(a.0, Fail, o2);
    AddWaiting(a.0, Fail, o2);
    AddEffect(b.0, Progress, o3);
    assert b.0.progress == NewDfd().progress;
    assert [] + [o1] == [o1];
  }

  /** A notification runs the listener and then ends. */
  lemma OneNotify(d: Dfd, o: Observer, v: Val)
    requires OneListener(d, o)
    ensures var r := FireD(d, Progress, v);
      && r.1 == Some(o) && Argument(r.0, Progress) == v
      && FinishedD(r.0, Progress).1 == None
  {
    FireProgress(d, v);
    var l := d.progress.list;
    assert Wrap([o]) == [Client(o)];
    assert l.list == Some([Client(o)]);
    HeadAtCall(l.(asked := l.asked + [v]), v, true);
    var r := FireD(d, Progress, v).0.progress.list;
    assert r.firing && r.firingIndex == 0 && r.firingLength == 1 && r.stack == Some([]);
    ReturnAdvances(r);
    assert CallbackList.Return(r, false) == CallbackList.Finish(r.(firingIndex := 1));
  }

  lemma {:induction false} RunSnoc(w: World, choices: seq<Choice>, c: Choice)
    requires CellsOk(w)
    ensures Run(w, choices + [c]) == Step(Run(w, choices), c)
    decreases |choices|
  {
    hide CellsOk, Step;
    if choices == [] {
      assert [c][1..] == [];
      StepCellsOk(w, c);
      assert choices + [c] == [c];
    } else {
      assert (choices + [c])[1..] == choices[1..] + [c];
      StepCellsOk(w, choices[0]);
      RunSnoc(Step(w, choices[0]), choices[1..], c);
    }
  }

  /** Library code at the top of the stack runs whatever the client would choose. */
  const GO_ON := Act(MakeDeferred)

  /** `then` registers its three observers. */
  lemma ThenRegisters(w: World, d: nat, t: nat, fns: Fns)
    requires CellsOk(w) && d < |w.cells| && w.cells[d].d == NewDfd()
    requires w.stack != [] && w.stack[0] == Glue(ThenAdds(d, t, fns))
    ensures var u := Run(w, [GO_ON, GO_ON, GO_ON, GO_ON]);
      && u.stack == w.stack[1..] && u.whens == w.whens && u.calls == w.calls
      && |u.cells| == |w.cells| && u.cells[d].origin == w.cells[d].origin
      && (forall i :: 0 <= i < |w.cells| && i != d ==> u.cells[i] == w.cells[i])
      && OneListener(u.cells[d].d, ThenObserver(t, Progress, fns))
      && Due(u.cells[d].d, Done) == [ThenObserver(t, Done, fns)]
  {
    var acts := ThenAdds(d, t, fns);
    ThreeAdds(acts[0].obs, acts[1].obs, acts[2].obs);
    GlueRun(w, d, acts[0].obs, acts[1].obs, acts[2].obs);
  }

  /** One act of library code is taken off its frame and done. */
  lemma GlueStep(w: World, a: Act, rest: seq<Act>)
    requires CellsOk(w) && w.stack != [] && w.stack[0] == Glue([a] + rest)
    ensures Step(w, GO_ON) == DoAct(w.(stack := [Glue(rest)] + w.stack[1..]), a)
  {
    hide ListsWf, DoAct;
    assert ([a] + rest)[1..] == rest;
  }

  lemma AddQuietly(w: World, d: nat, k: Kind, o: Observer, rest: seq<Act>)
    requires CellsOk(w) && d < |w.cells| && w.stack != [] && w.stack[0] == Glue([GAdd(d, k, o)] + rest)
    requires AddD(w.cells[d].d, k, o).1 == None
    ensures Step(w, GO_ON) == w.(stack := [Glue(rest)] + w.stack[1..],
                                 cells := w.cells[d := w.cells[d].(d := AddD(w.cells[d].d, k, o).0)])
    ensures CellsOk(Step(w, GO_ON))
  {
    hide AddD, ListsWf, FireD, FinishedD;
    GlueStep(w, GAdd(d, k, o), rest);
    StepCellsOk(w, GO_ON);
  }

  /** Three registrations on d, none of which starts a callback. */
  lemma GlueRun(w: World, d: nat, o1: Observer, o2: Observer, o3: Observer)
    requires CellsOk(w) && d < |w.cells| && w.stack != []
    requires w.stack[0] == Glue([GAdd(d, Done, o1), GAdd(d, Fail, o2), GAdd(d, Progress, o3)])
    requires var a := AddD(w.cells[d].d, Done, o1);
      var b := AddD(a.0, Fail, o2);
      a.1 == None && b.1 == None && AddD(b.0, Progress, o3).1 == None
    ensures var c := AddD(AddD(AddD(w.cells[d].d, Done, o1).0, Fail, o2).0, Progress, o3).0;
      Run(w, [GO_ON, GO_ON, GO_ON, GO_ON])
        == w.(stack := w.stack[1..], cells := w.cells[d := w.cells[d].(d := c)])
  {
    hide AddD, ListsWf, FireD, FinishedD, NewDfd;
    GlueThree(w, d, o1, o2, o3);
    RunFour(w);
  }

  lemma GlueThree(w: World, d: nat, o1: Observer, o2: Observer, o3: Observer)
    requires CellsOk(w) && d < |w.cells| && w.stack != []
    requires w.stack[0] == Glue([GAdd(d, Done, o1), GAdd(d, Fail, o2), GAdd(d, Progress, o3)])
    requires var a := AddD(w.cells[d].d, Done, o1);
      var b := AddD(a.0, Fail, o2);
      a.1 == None && b.1 == None && AddD(b.0, Progress, o3).1 == None
    ensures CellsOk(Step(w, GO_ON)) && CellsOk(Step(Step(w, GO_ON), GO_ON))
    ensures var c := AddD(AddD(AddD(w.cells[d].d, Done, o1).0, Fail, o2).0, Progress, o3).0;
      Step(Step(Step(w, GO_ON), GO_ON), GO_ON)
        == w.(stack := [Glue([])] + w.stack[1..], cells := w.cells[d := w.cells[d].(d := c)])
  {
    hide AddD, ListsWf, FireD, FinishedD, NewDfd, Step;
    var a2, a3 := [GAdd(d, Fail, o2), GAdd(d, Progress, o3)], [GAdd(d, Progress, o3)];
    assert w.stack[0].acts == [GAdd(d, Done, o1)] + a2;
    AddQuietly(w, d, Done, o1, a2);
    var w1 := Step(w, GO_ON);
    assert a2 == [GAdd(d, Fail, o2)] + a3 && w1.stack[1..] == w.stack[1..];
    AddQuietly(w1, d, Fail, o2, a3);
    var w2 := Step(w1, GO_ON);
    assert a3 == [GAdd(d, Progress, o3)] + [] && w2.stack[1..] == w.stack[1..];
    AddQuietly(w2, d, Progress, o3, []);
  }

  lemma RunFour(w: World)
    requires CellsOk(w)
    ensures CellsOk(Step(w, GO_ON)) && CellsOk(Step(Step(w, GO_ON), GO_ON))
    ensures CellsOk(Step(Step(Step(w, GO_ON), GO_ON), GO_ON))
    ensures Run(w, [GO_ON, GO_ON, GO_ON, GO_ON]) == Step(Step(Step(Step(w, GO_ON), GO_ON), GO_ON), GO_ON)
  {
    hide Step, CellsOk;
    StepCellsOk(w, GO_ON);
    StepCellsOk(Step(w, GO_ON), GO_ON);
    StepCellsOk(Step(Step(w, GO_ON), GO_ON), GO_ON);
    RunSnoc(w, [], GO_ON);
    RunSnoc(w, [GO_ON], GO_ON);
    RunSnoc(w, [GO_ON, GO_ON], GO_ON);
    RunSnoc(w, [GO_ON, GO_ON, GO_ON], GO_ON);
    assert [] + [GO_ON] == [GO_ON];
    assert [GO_ON] + [GO_ON] == [GO_ON, GO_ON];
    assert [GO_ON, GO_ON] + [GO_ON] == [GO_ON, GO_ON, GO_ON];
    assert [GO_ON, GO_ON, GO_ON] + [GO_ON] == [GO_ON, GO_ON, GO_ON, GO_ON];
  }

  lemma {:induction false} RunAppend(w: World, a: seq<Choice>, b: seq<Choice>)
    requires CellsOk(w)
    ensures Run(w, a + b) == Run(Run(w, a), b)
    decreases |a|
  {
    hide CellsOk, Step;
    if a == [] {
      assert a + b == b;
    } else {
      assert (a + b)[1..] == a[1..] + b;
      StepCellsOk(w, a[0]);
      RunAppend(Step(w, a[0]), a[1..], b);
    }
  }

  lemma RunOne(w: World, c: Choice)
    requires CellsOk(w)
    ensures Run(w, [c]) == Step(w, c)
  {
    hide CellsOk, Step;
    RunSnoc(w, [], c);
    assert [] + [c] == [c];
  }

  /** A source with one call of `then` on it and a second Deferred beside it; nothing settled. */
  ghost predicate Prepared(w: World, fns: Fns) {
    && CellsOk(w) && w.stack == [UserCode(None)] && w.calls == [] && |w.cells| == 3
    && w.cells[0].origin == Public && OneListener(w.cells[0].d, ThenObserver(1, Progress, fns))
    && w.cells[1] == Cell(NewDfd(), ThenOf(0, fns))
    && w.cells[2] == Cell(NewDfd(), Public)
  }

  lemma Prepare(fns: Fns) returns (choices: seq<Choice>)
    ensures Prepared(Run(START, choices), fns)
  {
    hide NewDfd, ListsWf, Due, OneListener;
    var w1 := Step(START, Act(MakeDeferred));
    StepCellsOk(START, Act(MakeDeferred));
    RunOne(START, Act(MakeDeferred));
    var w2 := Step(w1, Act(Then(0, fns)));
    StepCellsOk(w1, Act(Then(0, fns)));
    RunSnoc(START, [Act(MakeDeferred)], Act(Then(0, fns)));
    ThenRegisters(w2, 0, 1, fns);
    var c2 := [Act(MakeDeferred)] + [Act(Then(0, fns))];
    RunAppend(START, c2, [GO_ON, GO_ON, GO_ON, GO_ON]);
    var c3 := c2 + [GO_ON, GO_ON, GO_ON, GO_ON];
    RunSnoc(START, c3, Act(MakeDeferred));
    choices := c3 + [Act(MakeDeferred)];
  }

  lemma NotifyFacts(d: Dfd, o: Observer, v: Val)
    requires OneListener(d, o)
    ensures var r := FireD(d, Progress, v);
      && r.1 == Some(o) && Argument(r.0, Progress) == v
      && FinishedD(r.0, Progress).1 == None
      && StatusOf(FinishedD(r.0, Progress).0) == Waiting
  {
    OneNotify(d, o, v);
    FireTraffic(d, Progress, v);
    FireEffect(d, Progress, v);
    FinishedTraffic(FireD(d, Progress, v).0, Progress);
    assert StatusOf(d) == Waiting;
  }

  /** The notification reaches the handler, which answers with the promise of Deferred 2. */
  lemma Notify(w: World, fns: Fns, v: Val) returns (choices: seq<Choice>, u: World)
    requires Prepared(w, fns) && fns.progress.Some?
    ensures u == Run(w, choices) && CellsOk(u)
    ensures var h := Handling(1, Progress, fns.progress.value, v);
      u == w.(stack := [Glue(AfterHandler(h, Promise(2))), InCallback(0, Progress), UserCode(None)],
              cells := w.cells[0 := w.cells[0].(d := FireD(w.cells[0].d, Progress, v).0)],
              calls := [HandlerCall(h, Promise(2))])
  {
    var h := Handling(1, Progress, fns.progress.value, v);
    NotifyFacts(w.cells[0].d, ThenObserver(1, Progress, fns), v);
    hide NewDfd, ListsWf, OneListener, FireD, AddD, FinishedD, StatusOf, DInv, Argument;
    var w1 := Step(w, Act(Settle(0, Progress, v)));
    StepCellsOk(w, Act(Settle(0, Progress, v)));
    RunOne(w, Act(Settle(0, Progress, v)));
    assert w1.stack == [UserCode(Some(h)), InCallback(0, Progress), UserCode(None)];
    u := Step(w1, Choice.Return(Promise(2)));
    StepCellsOk(w1, Choice.Return(Promise(2)));
    RunSnoc(w, [Act(Settle(0, Progress, v))], Choice.Return(Promise(2)));
    choices := [Act(Settle(0, Progress, v))] + [Choice.Return(Promise(2))];
    assert [Glue(AfterHandler(h, Promise(2)))] + w1.stack[1..]
      == [Glue(AfterHandler(h, Promise(2))), InCallback(0, Progress), UserCode(None)];
  }

  /** The wrapper adopts that promise; then the progress list is done. */
  lemma Adopt(w: World, h: Handling) returns (choices: seq<Choice>, u: World, d0: Dfd, d2: Dfd)
    requires CellsOk(w) && |w.cells| == 3 && w.cells[2].d == NewDfd() && h.target == 1
    requires w.stack == [Glue(AfterHandler(h, Promise(2))), InCallback(0, Progress), UserCode(None)]
    requires FinishedD(w.cells[0].d, Progress).1 == None
    ensures u == Run(w, choices) && CellsOk(u)
    ensures d0 == FinishedD(w.cells[0].d, Progress).0
    ensures OneListener(d2, Forward(1, Progress)) && Due(d2, Done) == [Forward(1, Done)]
    ensures u == w.(stack := [UserCode(None)],
                    cells := w.cells[2 := w.cells[2].(d := d2)][0 := w.cells[0].(d := d0)])
  {
    ThreeAdds(Forward(1, Done), Forward(1, Fail), Forward(1, Progress));
    hide NewDfd, ListsWf, OneListener, FireD, AddD, FinishedD, StatusOf, DInv, Due;
    d0 := FinishedD(w.cells[0].d, Progress).0;
    d2 := AddD(AddD(AddD(NewDfd(), Done, Forward(1, Done)).0, Fail, Forward(1, Fail)).0, Progress, Forward(1, Progress)).0;
    GlueRun(w, 2, Forward(1, Done), Forward(1, Fail), Forward(1, Progress));
    var c := [GO_ON, GO_ON, GO_ON, GO_ON];
    RunSnoc(w, c, GO_ON);
    choices := c + [GO_ON];
    u := Step(Run(w, c), GO_ON);
    StepCellsOk(Run(w, c), GO_ON);
    assert w.stack[1..][1..] == [UserCode(None)];
  }

  lemma ResolveFacts(d: Dfd, x: Val)
    requires DInv(d) && d.state == Pending && Due(d, Done) == [Forward(1, Done)]
    ensures var r := FireD(d, Done, x);
      && r.1 == Some(Forward(1, Done)) && Argument(r.0, Done) == x
      && FinishedD(r.0, Done).1 == None
    ensures FireD(NewDfd(), Done, x).1 == None
    ensures StatusOf(FireD(NewDfd(), Done, x).0) == Settled(Done, x)
  {
    SettleDue(d, Done, x);
    FireEffect(d, Done, x);
    FinishedDue(FireD(d, Done, x).0, Done);
    NewDfdInv();
    FreshDue();
    SettleDue(NewDfd(), Done, x);
  }

  lemma SettleStep(w: World, d: nat, k: Kind, v: Val)
    requires CellsOk(w) && w.stack != [] && w.stack[0].UserCode? && d < |w.cells| && w.cells[d].origin == Public
    ensures Step(w, Act(Settle(d, k, v))) == Apply(w, d, k, FireD(w.cells[d].d, k, v))
    ensures CellsOk(Step(w, Act(Settle(d, k, v))))
  {
    StepCellsOk(w, Act(Settle(d, k, v)));
    hide Apply, ListsWf, FireD;
  }

  /** Deferred 2 resolves; the adopting promise is about to. */
  lemma ResolveStep(w: World, x: Val) returns (u: World)
    requires CellsOk(w) && w.stack == [UserCode(None)] && |w.cells| == 3
    requires w.cells[2].origin == Public && DInv(w.cells[2].d) && w.cells[2].d.state == Pending
    requires Due(w.cells[2].d, Done) == [Forward(1, Done)]
    ensures u == Step(w, Act(Settle(2, Done, x))) && CellsOk(u) && |u.cells| == 3 && u.calls == w.calls
    ensures u.cells[0] == w.cells[0] && u.cells[1] == w.cells[1] && u.cells[2].d == FireD(w.cells[2].d, Done, x).0
    ensures u.stack == [Glue([GFire(1, Done, x)] + []), InCallback(2, Done), UserCode(None)]
  {
    ResolveFacts(w.cells[2].d, x);
    hide NewDfd, ListsWf, Due, FireD, AddD, FinishedD, StatusOf, DInv, Argument;
    u := Step(w, Act(Settle(2, Done, x)));
    SettleStep(w, 2, Done, x);
    hide Step, CellsOk;
    assert [GFire(1, Done, x)] == [GFire(1, Done, x)] + [];
  }

  /** Deferred 2 resolves, and the adopting promise with it, although its source is still pending. */
  lemma ResolveAdopted(w: World, x: Val) returns (choices: seq<Choice>, u: World)
    requires CellsOk(w) && w.stack == [UserCode(None)] && |w.cells| == 3
    requires w.cells[2].origin == Public && DInv(w.cells[2].d) && w.cells[2].d.state == Pending
    requires Due(w.cells[2].d, Done) == [Forward(1, Done)]
    requires w.cells[1].d == NewDfd()
    ensures u == Run(w, choices) && Quiescent(u) && u.calls == w.calls && |u.cells| == 3
    ensures u.cells[0] == w.cells[0] && u.cells[1].origin == w.cells[1].origin
    ensures StatusOf(u.cells[1].d) == Settled(Done, x)
  {
    ResolveFacts(w.cells[2].d, x);
    hide NewDfd, ListsWf, Due, FireD, AddD, FinishedD, StatusOf, DInv, Argument;
    var c0 := Act(Settle(2, Done, x));
    var w1 := ResolveStep(w, x);
    RunOne(w, c0);
    GlueStep(w1, GFire(1, Done, x), []);
    var w2 := Step(w1, GO_ON);
    StepCellsOk(w1, GO_ON);
    assert w2.stack == [Glue([]), InCallback(2, Done), UserCode(None)];
    var w3 := Step(w2, GO_ON);
    StepCellsOk(w2, GO_ON);
    assert w3 == w2.(stack := [InCallback(2, Done), UserCode(None)]);
    u := Step(w3, GO_ON);
    assert u.stack == [UserCode(None)];
    RunSnoc(w, [c0], GO_ON);
    RunSnoc(w, [c0] + [GO_ON], GO_ON);
    RunSnoc(w, [c0] + [GO_ON] + [GO_ON], GO_ON);
    choices := [c0] + [GO_ON] + [GO_ON] + [GO_ON];
  }

  /** With a progress handler there is a run in which the derived promise settles while its source never does. */
  lemma ProgressHandlerBreaksTheFold(fns: Fns, v: Val, x: Val) returns (choices: seq<Choice>)
    requires fns.progress.Some?
    ensures var w := Run(START, choices);
      && Quiescent(w) && IsThen(w, 1) && w.cells[1].origin == ThenOf(0, fns)
      && w.calls == [HandlerCall(Handling(1, Progress, fns.progress.value, v), Promise(2))]
      && StatusAt(w, 0) == Waiting && StatusAt(w, 1) == Settled(Done, x)
  {
    var c1 := Prepare(fns);
    var w1 := Run(START, c1);
    NotifyFacts(w1.cells[0].d, ThenObserver(1, Progress, fns), v);
    hide NewDfd, ListsWf, Due, StatusOf, DInv, FireD, FinishedD, AddD, Step;
    var c2, w2 := Notify(w1, fns, v);
    var c3, w3, d0, d2 := Adopt(w2, Handling(1, Progress, fns.progress.value, v));
    var c4, w4 := ResolveAdopted(w3, x);
    RunAppend(START, c1, c2);
    RunAppend(START, c1 + c2, c3);
    RunAppend(START, c1 + c2 + c3, c4);
    choices := c1 + c2 + c3 + c4;
  }

  /** Every promise made by calling `then` with these handlers is, at rest, its stage of its source. */
  ghost predicate AlwaysFolds(fns: Fns) {
    forall choices, t, h :: FoldsIn(Run(START, choices), fns, t, h)
  }

  ghost predicate FoldsIn(w: World, fns: Fns, t: nat, h: Answers) {
    Quiescent(w) && IsThen(w, t) && AnswersAs(w, t, h, 0) && w.cells[t].origin.fns == fns ==>
      StatusAt(w, t) == StageOutcome(h, 0, Statuses(w), fns, StatusAt(w, Src(w, t)))
  }

  /** The exact condition under which `then` is the fold for every client. */
  lemma FoldsIffNoProgressHandler(fns: Fns)
    ensures AlwaysFolds(fns) <==> fns.progress.None?
  {
    if fns.progress.None? {
      forall choices, t, h
        ensures FoldsIn(Run(START, choices), fns, t, h)
      {
        StageOfRun(choices, fns, t, h);
      }
    } else {
      var h: Answers := (i, k, v) => Promise(2);
      var choices := ProgressHandlerBreaksTheFold(fns, Undefined, Undefined);
      assert !FoldsIn(Run(START, choices), fns, 1, h);
    }
  }

  lemma StageOfRun(choices: seq<Choice>, fns: Fns, t: nat, h: Answers)
    requires fns.progress.None?
    ensures FoldsIn(Run(START, choices), fns, t, h)
  {
    var w := Run(START, choices);
    StartGood();
    RunGood(START, choices);
    if Quiescent(w) && IsThen(w, t) && AnswersAs(w, t, h, 0) && w.cells[t].origin.fns == fns {
      assert !ProgressAdopted(w, t) by { NoProgressCall(w, t); }
      StageAtRest(w, t, h, 0);
    }
  }

  lemma NoProgressCall(w: World, t: nat)
    requires LinksInside(w) && IsThen(w, t) && FnAt(w, t, Progress).None?
    ensures !ProgressAdopted(w, t)
  {
    forall c | c in w.calls
      ensures !(c.h.target == t && c.h.kind == Progress)
    {
      assert CallOk(w, c);
    }
  }
}
