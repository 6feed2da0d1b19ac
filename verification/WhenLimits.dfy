/** A re-entrant client can make a later rejection overtake the first one on its way to the master of `when`. */
module WhenLimits {
  import opened Prelude
  import opened Observers
  import opened Deferred
  import opened DeferredRuns
  import opened DeferredEffects
  import opened Promises
  import opened Then
  import opened ThenLimits

  /** Pending, never notified. */
  ghost predicate Silent(d: Dfd) {
    DInv(d) && d.state == Pending && !d.progress.list.firing && d.progress.list.memory.None?
  }

  /** Registering on a silent Deferred starts nothing. */
  lemma AddSilent(d: Dfd, k: Kind, o: Observer)
    requires Silent(d)
    ensures Silent(AddD(d, k, o).0) && AddD(d, k, o).1 == None
    ensures Due(AddD(d, k, o).0, Fail) == Due(d, Fail) + if k == Fail then [o] else []
  {
    AddEffect(d, k, o);
    if k == Progress { AddProgress(d, o); } else { AddDue(d, k, o); AddWaiting(d, k, o); }
  }

  lemma NewSilent()
    ensures Silent(NewDfd()) && Due(NewDfd(), Fail) == [] && StatusOf(NewDfd()) == Waiting
  {
    NewDfdInv();
    FreshDue();
  }

  /** The three listeners that `when` puts on one of its promises. */
  function Listened(d: Dfd, i: nat): Dfd
    requires ListsWf(d)
  {
    AddD(AddD(AddD(d, Done, Collect(0, i)).0, Fail, Forward(2, Fail)).0, Progress, CollectProgress(0, i)).0
  }

  lemma ListenedSilent(d: Dfd, i: nat)
    requires Silent(d)
    ensures Silent(Listened(d, i)) && Due(Listened(d, i), Fail) == Due(d, Fail) + [Forward(2, Fail)]
    ensures AddD(d, Done, Collect(0, i)).1 == None
    ensures AddD(AddD(d, Done, Collect(0, i)).0, Fail, Forward(2, Fail)).1 == None
    ensures AddD(AddD(AddD(d, Done, Collect(0, i)).0, Fail, Forward(2, Fail)).0, Progress, CollectProgress(0, i)).1 == None
  {
    AddSilent(d, Done, Collect(0, i));
    var a := AddD(d, Done, Collect(0, i)).0;
    AddSilent(a, Fail, Forward(2, Fail));
    AddSilent(AddD(a, Fail, Forward(2, Fail)).0, Progress, CollectProgress(0, i));
    hide Silent, AddD;
    assert Due(d, Fail) + [] == Due(d, Fail);
    assert Due(d, Fail) + [Forward(2, Fail)] + [] == Due(d, Fail) + [Forward(2, Fail)];
  }

  const CALL := [Promise(0), Promise(1)]

  /** `when` in its loop, at position i of two, with i finished visits on the stack below. */
  ghost predicate Looping(w: World, i: nat, depth: nat) {
    && CellsOk(w) && |w.cells| == 3 && |w.whens| == 1
    && w.whens[0].args == CALL && w.whens[0].remaining == 2 && w.whens[0].master == 2
    && w.cells[0].origin == Public && w.cells[1].origin == Public && w.cells[2].d == NewDfd()
    && |w.stack| == depth + 2
    && w.stack[0] == Glue([GVisit(0, i)])
    && (forall j :: 1 <= j <= depth ==> w.stack[j] == Glue([]))
    && w.stack[depth + 1] == UserCode(None)
  }

  lemma ListenRun(w: World, i: nat, a4: seq<Act>)
    requires CellsOk(w) && i < |w.cells| && Silent(w.cells[i].d) && w.stack != []
    requires w.stack[0] == Glue([GAdd(i, Done, Collect(0, i))] + ([GAdd(i, Fail, Forward(2, Fail))] + ([GAdd(i, Progress, CollectProgress(0, i))] + a4)))
    ensures CellsOk(Step(w, GO_ON)) && CellsOk(Step(Step(w, GO_ON), GO_ON))
    ensures Step(Step(Step(w, GO_ON), GO_ON), GO_ON)
         == w.(stack := [Glue(a4)] + w.stack[1..], cells := w.cells[i := w.cells[i].(d := Listened(w.cells[i].d, i))])
    ensures CellsOk(Step(Step(Step(w, GO_ON), GO_ON), GO_ON))
  {
    ListenedSilent(w.cells[i].d, i);
    hide AddD, ListsWf, FireD, FinishedD, NewDfd, Silent, Due, Step;
    var a3 := [GAdd(i, Progress, CollectProgress(0, i))] + a4;
    var a2 := [GAdd(i, Fail, Forward(2, Fail))] + a3;
    AddQuietly(w, i, Done, Collect(0, i), a2);
    var w2 := Step(w, GO_ON);
    assert w2.stack[1..] == w.stack[1..];
    AddQuietly(w2, i, Fail, Forward(2, Fail), a3);
    var w3 := Step(w2, GO_ON);
    assert w3.stack[1..] == w.stack[1..];
    AddQuietly(w3, i, Progress, CollectProgress(0, i), a4);
  }

  lemma VisitRound(w: World, i: nat, depth: nat)
    requires Looping(w, i, depth) && i < 2
    ensures CellsOk(Step(w, GO_ON))
    ensures Step(w, GO_ON) == w.(stack := [Glue([GAdd(i, Done, Collect(0, i))] + ([GAdd(i, Fail, Forward(2, Fail))]
                 + ([GAdd(i, Progress, CollectProgress(0, i))] + [GVisit(0, i + 1)])))] + ([Glue([])] + w.stack[1..]))
  {
    hide AddD, ListsWf, FireD, FinishedD, NewDfd;
    assert [GVisit(0, i)] == [GVisit(0, i)] + [];
    GlueStep(w, GVisit(0, i), []);
    StepCellsOk(w, GO_ON);
    assert [GAdd(i, Done, Collect(0, i))] + ([GAdd(i, Fail, Forward(2, Fail))] + ([GAdd(i, Progress, CollectProgress(0, i))] + [GVisit(0, i + 1)]))
      == [GAdd(i, Done, Collect(0, i)), GAdd(i, Fail, Forward(2, Fail)), GAdd(i, Progress, CollectProgress(0, i)), GVisit(0, i + 1)];
  }

  /** One round of the loop. */
  lemma Round(w: World, i: nat, depth: nat) returns (choices: seq<Choice>, u: World)
    requires Looping(w, i, depth) && i < 2 && Silent(w.cells[i].d)
    ensures u == Run(w, choices) && Looping(u, i + 1, depth + 1)
    ensures u.cells == w.cells[i := w.cells[i].(d := Listened(w.cells[i].d, i))]
  {
    VisitRound(w, i, depth);
    var w1 := Step(w, GO_ON);
    ListenRun(w1, i, [GVisit(0, i + 1)]);
    hide AddD, ListsWf, FireD, FinishedD, NewDfd, Silent, Due, Step, Listened;
    RunFour(w);
    choices := [GO_ON, GO_ON, GO_ON, GO_ON];
    assert ListsWf(Listened(w.cells[i].d, i));
    u := Run(w, choices);
    assert w1.stack[1..] == [Glue([])] + w.stack[1..];
    LoopingNext(w, i, depth, Listened(w.cells[i].d, i));
  }

  lemma LoopingNext(w: World, i: nat, depth: nat, d: Dfd)
    requires Looping(w, i, depth) && i < 2 && ListsWf(d)
    ensures Looping(w.(stack := [Glue([GVisit(0, i + 1)])] + ([Glue([])] + w.stack[1..]),
                       cells := w.cells[i := w.cells[i].(d := d)]), i + 1, depth + 1)
  {
    hide ListsWf, NewDfd;
  }

  /** Two pending Deferreds, the first with a fail callback of the client, and `when` called on both. */
  lemma SetUp(n: nat) returns (choices: seq<Choice>, u: World)
    ensures u == Run(START, choices) && Looping(u, 0, 0)
    ensures Silent(u.cells[0].d) && Due(u.cells[0].d, Fail) == [User(n)]
    ensures Silent(u.cells[1].d) && Due(u.cells[1].d, Fail) == []
  {
    NewSilent();
    AddSilent(NewDfd(), Fail, User(n));
    hide AddD, ListsWf, FireD, FinishedD, NewDfd, Silent, Due;
    assert [] + [User(n)] == [User(n)];
    var w1 := Step(START, Act(MakeDeferred));
    StepCellsOk(START, Act(MakeDeferred));
    RunOne(START, Act(MakeDeferred));
    var w2 := Step(w1, Act(MakeDeferred));
    StepCellsOk(w1, Act(MakeDeferred));
    RunSnoc(START, [Act(MakeDeferred)], Act(MakeDeferred));
    var w3 := Step(w2, Act(Listen(0, Fail, n)));
    StepCellsOk(w2, Act(Listen(0, Fail, n)));
    var c2 := [Act(MakeDeferred)] + [Act(MakeDeferred)];
    RunSnoc(START, c2, Act(Listen(0, Fail, n)));
    var c3 := c2 + [Act(Listen(0, Fail, n))];
    RunSnoc(START, c3, Act(WhenAll(CALL)));
    choices := c3 + [Act(WhenAll(CALL))];
    u := Step(w3, Act(WhenAll(CALL)));
    StepCellsOk(w3, Act(WhenAll(CALL)));
    assert w3.cells[1].d == NewDfd() && w3.stack == [UserCode(None)];
    assert u.stack == [Glue([GVisit(0, 0)]), UserCode(None)];
  }

  /** The end of the loop: nothing is settled, and the finished frames come off. */
  lemma LoopEnds(w: World) returns (choices: seq<Choice>, u: World)
    requires Looping(w, 2, 2)
    ensures u == Run(w, choices) && CellsOk(u) && u.cells == w.cells && u.whens == w.whens && u.stack == [UserCode(None)]
  {
    hide ListsWf, NewDfd;
    assert [GVisit(0, 2)] == [GVisit(0, 2)] + [];
    GlueStep(w, GVisit(0, 2), []);
    RunFour(w);
    var w1 := Step(w, GO_ON);
    assert w1 == w.(stack := [Glue([])] + w.stack[1..]);
    assert w.stack[1..] == [Glue([]), Glue([]), UserCode(None)];
    choices := [GO_ON, GO_ON, GO_ON, GO_ON];
    u := Run(w, choices);
    StepCellsOk(Step(Step(Step(w, GO_ON), GO_ON), GO_ON), GO_ON);
  }

  lemma RejectFacts(d: Dfd, o: Observer, v: Val)
    requires Silent(d) && Due(d, Fail) != [] && Due(d, Fail)[0] == o
    ensures FireD(d, Fail, v).1 == Some(o) && Argument(FireD(d, Fail, v).0, Fail) == v
    ensures StatusOf(FireD(d, Fail, v).0) == Settled(Fail, v)
  {
    SettleDue(d, Fail, v);
    FireEffect(d, Fail, v);
  }

  lemma RejectNew(v: Val)
    ensures StatusOf(FireD(NewDfd(), Fail, v).0) == Settled(Fail, v)
    ensures FireD(NewDfd(), Fail, v).1 == None
  {
    NewSilent();
    SettleDue(NewDfd(), Fail, v);
  }

  /**
   Deferred 0 is the first to be rejected, with v; its client callback rejects
   Deferred 1 with v2 before the listener of `when` on Deferred 0 has run. The
   master is then rejected with v2 and never with v.
   */
  lemma LaterRejectionOvertakes(n: nat, v: Val, v2: Val) returns (before: seq<Choice>, after: seq<Choice>)
    ensures CellsOk(Run(START, before))
    ensures var w, u := Run(START, before), Run(Run(START, before), after);
      && |w.whens| == 1 && w.whens[0].args == CALL && w.whens[0].master == 2 && |w.cells| == 3
      && StatusAt(w, 0) == Settled(Fail, v) && StatusAt(w, 1) == Waiting && StatusAt(w, 2) == Waiting
      && |u.cells| == 3 && StatusAt(u, 0) == Settled(Fail, v) && StatusAt(u, 2) == Settled(Fail, v2)
  {
    hide AddD, ListsWf, FireD, FinishedD, NewDfd, Step, Listened, StatusAt, Silent;
    var c0, w0 := SetUp(n);
    var c1, w1 := Round(w0, 0, 0);
    ListenedSilent(w0.cells[0].d, 0);
    var c2, w2 := Round(w1, 1, 1);
    ListenedSilent(w0.cells[1].d, 1);
    var c3, w3 := LoopEnds(w2);
    RunAppend(START, c0, c1);
    RunAppend(START, c0 + c1, c2);
    RunAppend(START, c0 + c1 + c2, c3);
    var c := c0 + c1 + c2 + c3;
    RunSnoc(START, c, Act(Settle(0, Fail, v)));
    before := c + [Act(Settle(0, Fail, v))];
    var w4 := RejectFirst(w3, n, v);
    after := RejectSecond(w4, v, v2);
  }

  /** Deferred 0 is rejected and its client callback is running. */
  lemma RejectFirst(w: World, n: nat, v: Val) returns (u: World)
    requires CellsOk(w) && |w.cells| == 3 && w.stack == [UserCode(None)]
    requires w.cells[0].origin == Public && Silent(w.cells[0].d) && Due(w.cells[0].d, Fail) == [User(n), Forward(2, Fail)]
    ensures u == Step(w, Act(Settle(0, Fail, v))) && CellsOk(u) && u.whens == w.whens
    ensures |u.cells| == 3 && u.cells[1] == w.cells[1] && u.cells[2] == w.cells[2]
    ensures StatusAt(u, 0) == Settled(Fail, v)
    ensures u.stack == [UserCode(None), InCallback(0, Fail), UserCode(None)]
  {
    RejectFacts(w.cells[0].d, User(n), v);
    hide FireD, AddD, FinishedD, ListsWf, NewDfd, Silent, Due, StatusOf, Argument;
    u := Step(w, Act(Settle(0, Fail, v)));
    StepCellsOk(w, Act(Settle(0, Fail, v)));
  }

  /** The callback rejects Deferred 1, whose listener is about to settle the master. */
  lemma RejectInside(w: World, v2: Val) returns (u: World)
    requires CellsOk(w) && |w.cells| == 3 && w.stack == [UserCode(None), InCallback(0, Fail), UserCode(None)]
    requires w.cells[1].origin == Public && Silent(w.cells[1].d) && Due(w.cells[1].d, Fail) == [Forward(2, Fail)]
    ensures StatusAt(w, 1) == Waiting
    ensures u == Step(w, Act(Settle(1, Fail, v2))) && CellsOk(u) && |u.cells| == 3
    ensures u.cells[0] == w.cells[0] && u.cells[2] == w.cells[2]
    ensures u.stack != [] && u.stack[0] == Glue([GFire(2, Fail, v2)] + [])
  {
    RejectFacts(w.cells[1].d, Forward(2, Fail), v2);
    assert StatusOf(w.cells[1].d) == Waiting;
    hide FireD, AddD, FinishedD, ListsWf, NewDfd, Silent, Due, StatusOf, Argument;
    u := Step(w, Act(Settle(1, Fail, v2)));
    StepCellsOk(w, Act(Settle(1, Fail, v2)));
    assert [GFire(2, Fail, v2)] == [GFire(2, Fail, v2)] + [];
  }

  /** It rejects Deferred 1, whose listener settles the master at once. */
  lemma RejectSecond(w: World, v: Val, v2: Val) returns (after: seq<Choice>)
    requires CellsOk(w) && |w.cells| == 3 && StatusAt(w, 0) == Settled(Fail, v)
    requires w.stack == [UserCode(None), InCallback(0, Fail), UserCode(None)]
    requires w.cells[1].origin == Public && w.cells[2].d == NewDfd()
    requires Silent(w.cells[1].d) && Due(w.cells[1].d, Fail) == [Forward(2, Fail)]
    ensures StatusAt(w, 1) == Waiting && StatusAt(w, 2) == Waiting
    ensures var u := Run(w, after);
      |u.cells| == 3 && StatusAt(u, 0) == Settled(Fail, v) && StatusAt(u, 2) == Settled(Fail, v2)
  {
    RejectNew(v2);
    NewSilent();
    hide FireD, AddD, FinishedD, ListsWf, NewDfd, Silent, Due, StatusOf, Argument;
    var b := Act(Settle(1, Fail, v2));
    var w2 := RejectInside(w, v2);
    RunOne(w, b);
    RunSnoc(w, [b], GO_ON);
    hide Run, Step;
    GlueStep(w2, GFire(2, Fail, v2), []);
    after := [b] + [GO_ON];
  }
}
