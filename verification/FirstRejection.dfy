/**
 Which rejection the master of `when` takes, decided at the call: the one at the
 lowest position if promises are rejected already, and the first one if nothing
 alive listens for failure before `when` does.
 */
module FirstRejection {
  import opened Prelude
  import opened Observers
  import opened Deferred
  import opened DeferredRuns
  import opened DeferredEffects
  import opened Promises
  import opened PromiseShape
  import opened Then
  import opened ThenLimits
  import opened Countdown
  import opened CountdownSteps
  import opened WhenOutcome
  import opened WhenOrder
  import opened WhenLoop

  // ----- the loop as a whole -----

  /** Client code is in control and may call `when` on these arguments, which are several. */
  ghost predicate CanCall(w: World, args: seq<Arg>) {
    && |args| > 1 && w.stack != [] && w.stack[0].UserCode?
    && forall i :: 0 <= i < |args| ==> ValidArg(w, args[i])
  }

  /** The world right after the call. */
  ghost function Calling(w: World, args: seq<Arg>): World
    requires CellsOk(w)
  {
    Step(w, Act(WhenAll(args)))
  }

  lemma LoopStarts(w: World, args: seq<Arg>)
    requires Shape(w) && CellsOk(w) && CanCall(w, args)
    ensures Tracked(w, Calling(w, args), |w.whens|, Point(None, None, [GVisit(|w.whens|, 0)], w.stack, 0))
    ensures Calling(w, args).whens[|w.whens|].args == args
  {
    NewIsBare();
    var x, u := |w.whens|, Calling(w, args);
    var s := Point(None, None, [GVisit(x, 0)], w.stack, 0);
    hide Bare, NewDfd, StatusOf, Due, ListsWf, LostAt, DInv;
    assert u == StartWhen(w, args);
    assert u.stack == [] + ([] + ([Glue(s.acts)] + s.rest));
    assert s.rest[|s.rest| - |w.stack|..] == w.stack;
    forall p: nat ensures !Registered(args, p, 0) {}
    assert StatusAt(u, |w.cells|) == Waiting;
  }

  lemma StepLoop(w0: World, w: World, x: nat, s: Point, c: Choice) returns (t: Option<Point>)
    requires Shape(w0) && Shape(w) && CellsOk(w) && WhenInv(w) && Tracked(w0, w, x, s)
    ensures t.None? ==> Over(w0, Step(w, c), x)
    ensures t.Some? ==> Tracked(w0, Step(w, c), x, t.value) && Cost(t.value, |w.whens[x].args|) < Cost(s, |w.whens[x].args|)
    ensures SameCall(w, Step(w, c), x)
  {
    AtHead(w0, w, x, s);
    hide Shape, CellsOk, WhenInv, Tracked, Over, Step, Cost;
    if s.fire == Some([]) { var p := FirePopped(w0, w, x, s, c); t := Some(p); }
    else if s.fire.Some? { var p := FireFired(w0, w, x, s, c); t := Some(p); }
    else if s.cb.Some? { var p := CallbackDone(w0, w, x, s, c); t := Some(p); }
    else if s.acts == [] { t := FramePopped(w0, w, x, s, c); }
    else if s.acts[0].GVisit? { var p := VisitDone(w0, w, x, s, c); t := Some(p); }
    else { var p := AddDone(w0, w, x, s, c); t := Some(p); }
  }

  lemma AtHead(w0: World, w: World, x: nat, s: Point)
    requires Tracked(w0, w, x, s)
    ensures x < |w.whens| && (s.acts != [] && s.acts[0].GVisit? ==> s.acts == [GVisit(x, s.next)])
    ensures w.stack != [] && !w.stack[0].UserCode?
  {
    hide Bare, StatusOf, Verdict, DuesGrown;
  }

  /** The loop ended after the first k choices. */
  ghost predicate OverAt(w0: World, w: World, x: nat, after: seq<Choice>, k: nat)
    requires CellsOk(w)
  {
    k <= |after| && Over(w0, Run(w, after[..k]), x)
  }

  lemma OverLater(w0: World, w: World, x: nat, after: seq<Choice>, k: nat)
    requires CellsOk(w) && after != [] && CellsOk(Step(w, after[0])) && OverAt(w0, Step(w, after[0]), x, after[1..], k)
    ensures OverAt(w0, w, x, after, k + 1)
  {
    hide Over, Step, CellsOk;
    assert after[..k + 1][1..] == after[1..][..k];
  }

  lemma OverNow(w0: World, w: World, x: nat, after: seq<Choice>)
    requires CellsOk(w) && after != [] && Over(w0, Step(w, after[0]), x)
    ensures OverAt(w0, w, x, after, 1)
  {
    hide Over, Step, CellsOk;
    RunOne(w, after[0]);
    assert after[..1] == [after[0]];
  }

  /** Whatever the choices: after them the loop is still running, or it ended after the first k. */
  lemma {:induction false} LoopRun(w0: World, w: World, x: nat, s: Point, after: seq<Choice>) returns (k: nat, t: Option<Point>)
    requires AllGood(w0) && AllGood(w) && Tracked(w0, w, x, s)
    ensures t.Some? ==> Tracked(w0, Run(w, after), x, t.value)
    ensures t.None? ==> OverAt(w0, w, x, after, k)
    decreases |after|
  {
    RunHead(w, after);
    hide Tracked, Over, OverAt, Step, Shape, ThenInv, WhenInv, AllTokens, WhenLive, Run;
    if after == [] { k, t := 0, Some(s); }
    else {
      var t1 := StepLoop(w0, w, x, s, after[0]);
      StepAllGood(w, after[0]);
      if t1.None? {
        k, t := 1, None;
        OverNow(w0, w, x, after);
      } else {
        k, t := LoopRun(w0, Step(w, after[0]), x, t1.value, after[1..]);
        if t.None? {
          OverLater(w0, w, x, after, k);
          k := k + 1;
        }
      }
    }
  }

  lemma RunHead(w: World, after: seq<Choice>)
    requires CellsOk(w)
    ensures after != [] ==> CellsOk(Step(w, after[0])) && Run(w, after) == Run(Step(w, after[0]), after[1..])
    ensures after == [] ==> Run(w, after) == w
  {
    if after != [] { StepCellsOk(w, after[0]); }
  }

  ghost predicate SameArgs(w: World, u: World, x: nat) {
    x < |w.whens| && x < |u.whens| && u.whens[x].args == w.whens[x].args && u.whens[x].master == w.whens[x].master
  }

  /** Left alone, the loop comes to its end. */
  lemma {:induction false} LoopEnds(w0: World, w: World, x: nat, s: Point) returns (choices: seq<Choice>)
    requires AllGood(w0) && AllGood(w) && Tracked(w0, w, x, s)
    ensures Over(w0, Run(w, choices), x) && x < |w.whens| && SameArgs(w, Run(w, choices), x)
    decreases if x < |w.whens| then Cost(s, |w.whens[x].args|) else 0
  {
    AtHead(w0, w, x, s);
    var t := StepLoop(w0, w, x, s, GO_ON);
    StepAllGood(w, GO_ON);
    hide Tracked, Over, Step, Shape, CellsOk, ThenInv, WhenInv, AllTokens, WhenLive, Cost;
    if t.None? {
      choices := [GO_ON];
      RunOne(w, GO_ON);
    } else {
      var more := LoopEnds(w0, Step(w, GO_ON), x, t.value);
      choices := [GO_ON] + more;
      assert choices[1..] == more;
    }
  }

  // ----- the answer -----

  /** The master m has been rejected with v, or library code is running that has not settled it yet. */
  ghost predicate Decides(w: World, m: nat, v: Val) {
    && (StatusAt(w, m).Settled? ==> StatusAt(w, m) == Settled(Fail, v))
    && (w.stack != [] && w.stack[0].UserCode? ==> StatusAt(w, m) == Settled(Fail, v))
  }

  lemma CallMade(w: World, args: seq<Arg>) returns (s: Point)
    requires AllGood(w) && CanCall(w, args)
    ensures AllGood(Calling(w, args)) && Tracked(w, Calling(w, args), |w.whens|, s)
    ensures |w.whens| < |Calling(w, args).whens| && Calling(w, args).whens[|w.whens|].args == args
    ensures Calling(w, args).whens[|w.whens|].master == |w.cells|
  {
    LoopStarts(w, args);
    StepAllGood(w, Act(WhenAll(args)));
    s := Point(None, None, [GVisit(|w.whens|, 0)], w.stack, 0);
    CallNumbers(w, Calling(w, args), |w.whens|, s);
  }

  lemma CallNumbers(w0: World, w: World, x: nat, s: Point)
    requires Tracked(w0, w, x, s)
    ensures x < |w.whens| && w.whens[x].master == |w0.cells|
  {
  }

  /** Within the loop. */
  lemma LoopDecides(w0: World, w: World, x: nat, s: Point, i: nat)
    requires WhenInv(w) && Tracked(w0, w, x, s) && FirstLost(w0, w.whens[x].args, i)
    ensures Decides(w, |w0.cells|, LostValue(w0, w.whens[x].args, i))
  {
    AtHead(w0, w, x, s);
    var args := w.whens[x].args;
    assert StatusAt(w, args[i].id) == StatusAt(w0, args[i].id);
    assert Lost(w, args[i]);
    MasterNotDone(w, x, i);
    hide WhenInv, Called, DuesGrown, Stacked, ActsAt, StatusOf, LostAt;
    if i >= s.next { assert NotFailed(w, |w0.cells|, s.fire); }
  }

  lemma OverDecides(w0: World, w: World, x: nat, i: nat)
    requires Over(w0, w, x) && FirstLost(w0, w.whens[x].args, i)
    ensures StatusAt(w, |w0.cells|) == Settled(Fail, LostValue(w0, w.whens[x].args, i))
  {
    hide StatusOf, LostAt, DuesGrown;
    assert i < |w.whens[x].args| by { assert LostAt(w0, w.whens[x].args, i); FirstInside(w0, w.whens[x].args, i); }
  }

  lemma FirstInside(w0: World, args: seq<Arg>, i: nat)
    requires LostAt(w0, args, i)
    ensures i < |args|
  {
  }

  lemma LowestAtCall(w: World, args: seq<Arg>, after: seq<Choice>, i: nat)
    requires AllGood(w) && CanCall(w, args) && FirstLost(w, args, i)
    ensures CellsOk(Calling(w, args))
    ensures Decides(Run(Calling(w, args), after), |w.cells|, LostValue(w, args, i))
  {
    var x, u0 := |w.whens|, Calling(w, args);
    var s := CallMade(w, args);
    var k, t := LoopRun(w, u0, x, s, after);
    RunAllGood(u0, after);
    var u := Run(u0, after);
    assert WhenInv(u);
    if t.Some? {
      hide AllGood, WhenInv, FirstLost, Run, Calling, Decides;
      CallNumbers(w, u, x, t.value);
      LoopDecides(w, u, x, t.value, i);
    } else {
      RunAllGood(u0, after[..k]);
      SplitRun(u0, after, k);
      RunAllGood(Run(u0, after[..k]), after[k..]);
      hide AllGood, WhenInv, FirstLost, Run, Calling;
      OverSettles(w, Run(u0, after[..k]), u, x, i);
    }
  }

  lemma OverSettles(w0: World, w: World, u: World, x: nat, i: nat)
    requires Over(w0, w, x) && Grows(w, u) && FirstLost(w0, w.whens[x].args, i)
    ensures Decides(u, |w0.cells|, LostValue(w0, w.whens[x].args, i))
  {
    OverDecides(w0, w, x, i);
    StatusInside(w, |w0.cells|);
    hide Over, FirstLost, StatusOf;
  }

  /**
   In any run of any client that calls `when` on several arguments of which some
   were rejected before, whatever happens afterwards: the master is rejected with
   the rejection at the lowest position, before client code is in control again.
   A promise whose fail callbacks are running at the call does not count, since
   the listener of `when` has to wait for them.
   */
  lemma LowestRejectionWins(before: seq<Choice>, args: seq<Arg>, after: seq<Choice>, i: nat)
    requires var w := Run(START, before); CanCall(w, args) && FirstLost(w, args, i)
    ensures CellsOk(Run(START, before)) && CellsOk(Calling(Run(START, before), args))
    ensures var w := Run(START, before); Decides(Run(Calling(w, args), after), |w.cells|, LostValue(w, args, i))
  {
    StartAllGood();
    RunAllGood(START, before);
    LowestAtCall(Run(START, before), args, after, i);
  }

  // ----- nobody alive listens for failure -----

  /** No promise is rejected, and whoever listens for failure on the pending ones only forwards to something settled. */
  ghost predicate Unheard(w: World, args: seq<Arg>) {
    forall a :: a in args && a.Promise? ==> UnheardAt(w, a.id)
  }

  ghost predicate UnheardAt(w: World, p: nat) {
    && !Lost(w, Promise(p))
    && (p < |w.cells| && StatusAt(w, p).Waiting? ==> forall o :: o in Due(w.cells[p].d, Fail) ==> Dead(w, o))
  }

  /** The loop leaves the call ready. */
  lemma OverReady(w0: World, w: World, x: nat)
    requires Over(w0, w, x) && Unheard(w0, w.whens[x].args)
    ensures Ready(w, x)
  {
    hide StatusOf, Due, Bare, Verdict, DueGrown, Registered, ClearIn;
    var args, m := w.whens[x].args, |w0.cells|;
    forall a | a in args ensures ReadyAt(w, a, m) {
      if a.Promise? && StatusAt(w, a.id).Waiting? {
        assert UnheardAt(w0, a.id);
        var j :| 0 <= j < |args| && args[j] == a;
        IsRegistered(args, j);
        OverClear(w0, w, Due(w0.cells[a.id].d, Fail), Due(w.cells[a.id].d, Fail), m);
      } else if a.Promise? {
        assert UnheardAt(w0, a.id);
        StatusKinds(w, a.id);
      }
    }
  }

  lemma IsRegistered(args: seq<Arg>, j: nat)
    requires j < |args| && args[j].Promise?
    ensures Registered(args, args[j].id, |args|)
  {
    assert args[j] == Promise(args[j].id);
  }

  lemma StatusKinds(w: World, p: nat)
    requires p < |w.cells|
    ensures StatusAt(w, p).Settled? ==> StatusAt(w, p).kind != Progress
  {
  }

  lemma OverClear(w0: World, w: World, due0: seq<Observer>, due: seq<Observer>, m: nat)
    requires DueGrown(due0, due, m, true) && (forall o :: o in due0 ==> Dead(w0, o))
    requires forall p: nat :: p < |w0.cells| ==> StatusAt(w, p) == StatusAt(w0, p)
    ensures ClearIn(w, due, m)
  {
    hide StatusOf;
    forall i | 0 <= i < |due0| ensures Dead(w, due[i]) { assert due[i] == due0[i]; assert Dead(w0, due0[i]); StatusInside(w0, due0[i].target); }
  }

  /** The first n choices, seen from after the first j of them. */
  lemma SliceRun(w: World, after: seq<Choice>, u: World, rest: seq<Choice>, j: nat, n: nat)
    requires CellsOk(w) && j <= n <= |after| && u == Run(w, after[..j]) && rest == after[j..]
    ensures Run(w, after[..n]) == Run(u, rest[..n - j])
  {
    hide CellsOk, Run;
    SplitRun(w, after[..n], j);
    assert after[..n][..j] == after[..j];
    assert after[..n][j..] == rest[..n - j];
  }

  lemma ShiftFirst(w: World, u: World, x: nat, after: seq<Choice>, rest: seq<Choice>, j: nat, k: nat, p: nat, v: Val)
    requires CellsOk(w) && CellsOk(u) && Grows(w, u) && FirstToFail(w, x, after, k, p, v) && j <= k
    requires j <= |after| && u == Run(w, after[..j]) && rest == after[j..]
    ensures FirstToFail(u, x, rest, k - j, p, v)
  {
    hide CellsOk, NoneLost, StatusAt, Run, Step;
    SliceRun(w, after, u, rest, j, k);
    SliceRun(w, after, u, rest, j, k + 1);
  }

  /** No promise is rejected while the loop runs. */
  lemma LoopSettlesNothing(w0: World, w: World, x: nat, p: nat)
    requires Called(w0, w, x) && Promise(p) in w.whens[x].args && UnheardAt(w0, p)
    ensures !Lost(w, Promise(p))
  {
    hide StatusOf, Bare;
    assert StatusAt(w, p) == StatusAt(w0, p);
  }

  lemma TrackedCalled(w0: World, w: World, x: nat, s: Point)
    requires Tracked(w0, w, x, s)
    ensures Called(w0, w, x)
  {
  }

  /** The first rejection comes after the loop. */
  lemma FirstAfterLoop(w: World, args: seq<Arg>, after: seq<Choice>, k: nat, p: nat, v: Val) returns (j: nat)
    requires AllGood(w) && CanCall(w, args) && Unheard(w, args)
    requires CellsOk(Calling(w, args)) && FirstToFail(Calling(w, args), |w.whens|, after, k, p, v)
    ensures j <= k && AllGood(Calling(w, args)) && OverAt(w, Calling(w, args), |w.whens|, after, j)
  {
    hide Shape, ThenInv, WhenInv, AllTokens, WhenLive, StatusOf, Step;
    var x, u0 := |w.whens|, Calling(w, args);
    var s := CallMade(w, args);
    var t;
    var some := after[..k + 1];
    j, t := LoopRun(w, u0, x, s, some);
    assert UnheardAt(w, p);
    RunAllGood(u0, some);
    hide AllGood, Calling, Unheard, UnheardAt, Tracked, Over, StatusOf, StatusAt, CanCall;
    if t.Some? {
      TrackedCalled(w, Run(u0, some), x, t.value);
      NotThere(w, Run(u0, some), x, p, v);
    } else if j == k + 1 {
      assert some[..j] == some;
      OverCalled(w, Run(u0, some), x);
      NotThere(w, Run(u0, some), x, p, v);
    } else {
      assert some[..j] == after[..j];
    }
  }

  lemma OverCalled(w0: World, w: World, x: nat)
    requires Over(w0, w, x)
    ensures Called(w0, w, x)
  {
  }

  lemma NotThere(w0: World, w: World, x: nat, p: nat, v: Val)
    requires Called(w0, w, x) && Promise(p) in w.whens[x].args && UnheardAt(w0, p)
    ensures StatusAt(w, p) != Settled(Fail, v)
  {
    LoopSettlesNothing(w0, w, x, p);
  }

  lemma StruckDecides(w: World, p: nat, m: nat, v: Val)
    requires Struck(w, p, m, v)
    ensures Decides(w, m, v)
  {
  }

  lemma FirstAtCall(w: World, args: seq<Arg>, after: seq<Choice>, k: nat, p: nat, v: Val)
    requires AllGood(w) && CanCall(w, args) && Unheard(w, args)
    requires CellsOk(Calling(w, args)) && FirstToFail(Calling(w, args), |w.whens|, after, k, p, v)
    ensures Decides(Run(Calling(w, args), after), |w.cells|, v)
  {
    var x, u0 := |w.whens|, Calling(w, args);
    var s := CallMade(w, args);
    var j := FirstAfterLoop(w, args, after, k, p, v);
    RunAllGood(u0, after[..j]);
    hide AllGood, Tracked, Over, FirstToFail, Unheard, CanCall, Calling, Decides, Run;
    var u := Run(u0, after[..j]);
    AfterLoop(w, u0, x, after, j, k, p, v);
  }

  lemma AfterLoop(w: World, u0: World, x: nat, after: seq<Choice>, j: nat, k: nat, p: nat, v: Val)
    requires AllGood(u0) && OverAt(w, u0, x, after, j) && j <= k && FirstToFail(u0, x, after, k, p, v)
    requires x < |u0.whens| && Unheard(w, u0.whens[x].args)
    ensures Decides(Run(u0, after), |w.cells|, v)
  {
    hide Shape, ThenInv, WhenInv, AllTokens, WhenLive, CellsOk, Run, Step, Over, StatusOf;
    RunAllGood(u0, after[..j]);
    var u, rest := Run(u0, after[..j]), after[j..];
    assert CellsOk(u0) && CellsOk(u);
    ShiftFirst(u0, u, x, after, rest, j, k, p, v);
    assert x < |u.whens| && u.whens[x].args == u0.whens[x].args;
    hide AllGood, Unheard, FirstToFail, Decides, Run, Over, CellsOk, Grows;
    SplitRun(u0, after, j);
    FromOver(w, u, x, rest, k - j, p, v);
  }

  lemma FromOver(w: World, u: World, x: nat, rest: seq<Choice>, k: nat, p: nat, v: Val)
    requires AllGood(u) && Over(w, u, x) && x < |u.whens| && Unheard(w, u.whens[x].args) && FirstToFail(u, x, rest, k, p, v)
    ensures Decides(Run(u, rest), |w.cells|, v)
  {
    assert CellsOk(u);
    hide AllGood, Unheard, StatusOf, StatusAt, FirstToFail, Decides, Run, Over, Struck, Ready;
    OverCalled(w, u, x);
    OverReady(w, u, x);
    ReadyFirstWins(u, x, rest, k, p, v);
    StruckDecides(Run(u, rest), p, |w.cells|, v);
  }

  /**
   In any run of any client that calls `when` on several arguments, none of them
   rejected, when whoever listens for failure on the pending ones only forwards to
   something settled: whatever happens afterwards, re-entrant or not, the promise
   that is the first to be rejected gives the master its rejection, before client
   code is in control again.
   */
  lemma FirstInTimeWins(before: seq<Choice>, args: seq<Arg>, after: seq<Choice>, k: nat, p: nat, v: Val)
    requires var w := Run(START, before);
      && CanCall(w, args) && Unheard(w, args)
      && CellsOk(w) && CellsOk(Calling(w, args)) && FirstToFail(Calling(w, args), |w.whens|, after, k, p, v)
    ensures CellsOk(Run(START, before)) && CellsOk(Calling(Run(START, before), args))
    ensures var w := Run(START, before); Decides(Run(Calling(w, args), after), |w.cells|, v)
  {
    StartAllGood();
    RunAllGood(START, before);
    FirstAtCall(Run(START, before), args, after, k, p, v);
  }
}
