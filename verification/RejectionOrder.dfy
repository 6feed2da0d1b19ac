/** Exactly when the first rejection is the one that the master of `when` takes, for every call on Deferreds of the client's own. */
module RejectionOrder {
  import opened Prelude
  import opened Observers
  import opened Deferred
  import opened DeferredRuns
  import opened DeferredEffects
  import opened Promises
  import opened PromiseShape
  import opened Then
  import opened ThenLive
  import opened ThenLimits
  import opened Countdown
  import opened CountdownSteps
  import opened WhenOutcome
  import opened WhenOrder
  import opened WhenLoop
  import opened FirstRejection
  import opened Cascade
  import opened Overtaking

  /** No promise among the arguments is rejected, and the pending ones belong to Deferreds that client code settles. */
  ghost predicate OwnPromises(w: World, args: seq<Arg>) {
    forall a :: a in args && a.Promise? ==> !Lost(w, a) && (IsPublic(w, a.id) || IsResolved(w, a.id))
  }

  ghost predicate PendingArg(w: World, args: seq<Arg>, p: nat) {
    Promise(p) in args && p < |w.cells| && StatusAt(w, p).Waiting?
  }

  /** o listens for failure on the pending p, and is client code or forwards to something pending. */
  ghost predicate AliveOn(w: World, p: nat, o: Observer) {
    p < |w.cells| && o in Due(w.cells[p].d, Fail) && !Dead(w, o)
  }

  // ----- once the loop is over -----

  /** The world after the loop of `when`, seen from the call. */
  ghost predicate Ended(w: World, u: World, args: seq<Arg>) {
    && Over(w, u, |w.whens|) && Grows(w, u)
    && |w.whens| < |u.whens| && u.whens[|w.whens|].args == args && u.whens[|w.whens|].master == |w.cells|
  }

  lemma EndsLoop(w: World, args: seq<Arg>) returns (choices: seq<Choice>)
    requires AllGood(w) && CanCall(w, args)
    ensures AllGood(Calling(w, args))
    ensures var u := Run(Calling(w, args), choices); AllGood(u) && Ended(w, u, args)
  {
    var u0 := Calling(w, args);
    StepAllGood(w, Act(WhenAll(args)));
    var s := CallMade(w, args);
    choices := LoopEnds(w, u0, |w.whens|, s);
    RunAllGood(u0, choices);
    hide AllGood, Tracked, Calling, Run, CanCall, Over;
    GrowsTransitive(w, u0, Run(u0, choices));
  }

  lemma EndedStatus(w: World, u: World, args: seq<Arg>, p: nat)
    requires Ended(w, u, args) && p < |w.cells|
    ensures StatusAt(u, p) == StatusAt(w, p)
  {
    hide StatusOf, Due;
  }

  lemma EndedNoneLost(w: World, u: World, args: seq<Arg>)
    requires Ended(w, u, args) && OwnPromises(w, args)
    ensures NoneLost(u, |w.whens|)
  {
    hide StatusOf, Due, Ended, StatusAt;
    forall a | a in args ensures !Lost(u, a) {
      if a.Promise? {
        if !IsPublic(w, a.id) { StatusInside(w, a.id); }
        EndedStatus(w, u, args, a.id);
      }
    }
    assert u.whens[|w.whens|].args == args by { EndedArgs(w, u, args); }
  }

  lemma EndedArgs(w: World, u: World, args: seq<Arg>)
    requires Ended(w, u, args)
    ensures |w.whens| < |u.whens| && u.whens[|w.whens|].args == args && u.whens[|w.whens|].master == |w.cells|
    ensures u.stack == w.stack && Grows(w, u)
  {
    hide Called, Verdict, DuesGrown;
  }

  lemma EndedDue(w: World, u: World, args: seq<Arg>, q: nat)
    requires Ended(w, u, args) && PendingArg(w, args, q)
    ensures q < |u.cells| && Due(w.cells[q].d, Fail) <= Due(u.cells[q].d, Fail)
    ensures Forward(|w.cells|, Fail) in Due(u.cells[q].d, Fail)
  {
    hide StatusOf, Due, Verdict, Called, Registered;
    var i :| 0 <= i < |args| && args[i] == Promise(q);
    IsRegistered(args, i);
    assert DueGrown(Due(w.cells[q].d, Fail), Due(u.cells[q].d, Fail), |w.cells|, true);
  }

  lemma EndedMaster(w: World, u: World, args: seq<Arg>, p: nat)
    requires WhenInv(u) && Ended(w, u, args) && OwnPromises(w, args) && PendingArg(w, args, p)
    ensures MasterOfPublic(u, |w.cells|) && StatusAt(u, |w.cells|).Waiting?
  {
    EndedNoneLost(w, u, args);
    EndedStatus(w, u, args, p);
    EndedArgs(w, u, args);
    MasterWaits(u, |w.whens|, Promise(p));
    InvRecord(u, |w.whens|);
    hide StatusOf, WhenInv, Ended;
  }

  // ----- who may listen first -----

  lemma AliveKinds(w: World, p: nat, o: Observer)
    requires WhenInv(w) && AliveOn(w, p, o)
    ensures IsClient(o) || (o.Forward? && o.kind == Fail && AliveTarget(w, o.target))
  {
    assert WCellOk(w, p);
    assert WObsOk(w, p, Fail, o);
    hide StatusOf, Due, WhenInv, WCellOk;
  }

  ghost predicate AliveTarget(w: World, t: nat) {
    t < |w.cells| && !IsPublic(w, t) && StatusAt(w, t).Waiting?
  }

  /** Nobody listens for a master that does not exist yet. */
  lemma NotYetDue(w: World, p: nat)
    requires WhenInv(w) && p < |w.cells|
    ensures Forward(|w.cells|, Fail) !in Due(w.cells[p].d, Fail)
  {
    assert WCellOk(w, p);
    hide StatusOf, Due, WhenInv;
    forall o | o in Due(w.cells[p].d, Fail) ensures o != Forward(|w.cells|, Fail) { assert WObsOk(w, p, Fail, o); }
  }

  lemma PendingNotSuspended(w: World, t: nat)
    requires Shape(w) && t < |w.cells| && StatusAt(w, t).Waiting?
    ensures InCallback(t, Fail) !in w.stack
  {
    if Firing(w.cells[t].d, Fail) { FiringIsSettled(w.cells[t].d, Fail); }
  }

  /** After the loop, with t the promise on which client code is going to listen, if any. */
  lemma AroundEnded(w: World, u: World, args: seq<Arg>, p: nat, q: nat, v: Val, t: Option<nat>) returns (s: Plan)
    requires Shape(w) && WhenInv(u) && Ended(w, u, args) && OwnPromises(w, args)
    requires PendingArg(w, args, p) && PendingArg(w, args, q) && p != q
    requires t.Some? ==> AliveTarget(w, t.value)
    ensures s == Plan(u.stack, p, q, |w.cells|, v, 0, t) && Around(u, s) && StatusAt(u, p).Waiting?
  {
    s := Plan(u.stack, p, q, |w.cells|, v, 0, t);
    EndedMaster(w, u, args, p);
    EndedArgs(w, u, args);
    EndedStatus(w, u, args, p);
    EndedStatus(w, u, args, q);
    EndedDue(w, u, args, q);
    if t.Some? { PendingNotSuspended(w, t.value); }
    hide StatusOf, Due, Ended, StatusAt, Shape, WhenInv, MasterOfPublic;
    assert Lost(w, Promise(p)) == Lost(w, Promise(p)) && IsPublic(w, Promise(p).id) && IsPublic(w, Promise(q).id);
  }

  /** Client code starts to listen for failure on a pending promise. */
  lemma Listens(w: World, t: nat, n: nat)
    requires Shape(w) && CellsOk(w) && w.stack != [] && w.stack[0].UserCode? && t < |w.cells| && StatusAt(w, t).Waiting?
    ensures var u := Step(w, Act(Listen(t, Fail, n)));
      && u.stack == w.stack && u.whens == w.whens && |u.cells| == |w.cells|
      && (forall i :: 0 <= i < |w.cells| && i != t ==> u.cells[i] == w.cells[i])
      && u.cells[t].origin == w.cells[t].origin && StatusAt(u, t).Waiting? && User(n) in Due(u.cells[t].d, Fail)
  {
    var D := w.cells[t].d;
    AddEffect(D, Fail, User(n));
    AddDue(D, Fail, User(n));
    assert D.state == Pending;
    hide DInv, Shape, CellsOk, ListsWf, StatusOf, Due, AddD;
  }

  lemma AroundListening(w: World, u: World, s: Plan, t: nat)
    requires Around(w, s) && StatusAt(w, s.p).Waiting? && s.t == Some(t) && u.whens == w.whens && |u.cells| == |w.cells|
    requires forall i :: 0 <= i < |w.cells| && i != t ==> u.cells[i] == w.cells[i]
    requires t < |w.cells| && t != s.m && u.cells[t].origin == w.cells[t].origin && StatusAt(w, t).Waiting?
    ensures Around(u, s) && StatusAt(u, s.p) == StatusAt(w, s.p)
    ensures s.p < |w.cells| && u.cells[s.p] == w.cells[s.p]
  {
    hide StatusOf, Due;
    assert forall i: nat :: IsPublic(u, i) == IsPublic(w, i);
    forall a | a in u.whens[u.cells[s.m].origin.w].args && a.Promise? ensures IsPublic(u, a.id) || IsResolved(u, a.id) {
      if !IsPublic(w, a.id) { StatusInside(w, a.id); }
    }
  }

  /** The plan is made, after listening on the target of o if o is not client code. */
  lemma MakePlan(w: World, u: World, args: seq<Arg>, p: nat, q: nat, o: Observer, v: Val)
      returns (pre: seq<Choice>, s: Plan, a: seq<Observer>)
    requires AllGood(w) && AllGood(u) && Ended(w, u, args) && OwnPromises(w, args) && CanCall(w, args)
    requires PendingArg(w, args, p) && PendingArg(w, args, q) && p != q && AliveOn(w, p, o)
    ensures var z := Run(u, pre); AllGood(z) && Planned(z, s, a) && NoneLost(z, |w.whens|)
    ensures s.p == p && s.q == q && s.m == |w.cells| && s.v == v
  {
    hide Shape, WhenInv, ThenInv, AllTokens, WhenLive, StatusOf, Due;
    assert Shape(w) && WhenInv(w) && WhenInv(u) && Shape(u) && CellsOk(u);
    AliveKinds(w, p, o);
    EndedArgs(w, u, args);
    EndedDue(w, u, args, p);
    EndedNoneLost(w, u, args);
    NotYetDue(w, p);
    a := Due(w.cells[p].d, Fail);
    hide AllGood, Shape, WhenInv, CellsOk, StatusOf, StatusAt, Due, Ended, OwnPromises, MasterOfPublic, NoneLost, Step, Dead, PendingArg, AliveTarget;
    if IsClient(o) {
      s := AroundEnded(w, u, args, p, q, v, None);
      pre := [];
      assert Planned(u, s, a);
    } else {
      s := AroundEnded(w, u, args, p, q, v, Some(o.target));
      assert AliveTarget(u, o.target) by { StaysTarget(w, u, args, o.target); }
      pre := ListenFirst(u, |w.whens|, s, a, o.target);
    }
  }

  lemma StaysTarget(w: World, u: World, args: seq<Arg>, t: nat)
    requires Ended(w, u, args) && AliveTarget(w, t)
    ensures AliveTarget(u, t)
  {
    EndedStatus(w, u, args, t);
    EndedArgs(w, u, args);
    hide StatusOf, Ended;
  }

  lemma ListenFirst(u: World, x: nat, s: Plan, a: seq<Observer>, t: nat) returns (pre: seq<Choice>)
    requires AllGood(u) && u.stack != [] && u.stack[0].UserCode? && NoneLost(u, x)
    requires Around(u, s) && StatusAt(u, s.p).Waiting? && s.base == u.stack && s.t == Some(t)
    requires AliveTarget(u, t) && s.p < |u.cells| && a <= Due(u.cells[s.p].d, Fail) && Forward(s.m, Fail) !in a && Forward(t, Fail) in a
    ensures var z := Run(u, pre); AllGood(z) && Planned(z, s, a) && NoneLost(z, x)
  {
    var c := Act(Listen(t, Fail, s.n));
    var z := Step(u, c);
    Listens(u, t, s.n);
    StepAllGood(u, c);
    RunOne(u, c);
    pre := [c];
    hide AllGood, Shape, WhenInv, CellsOk, StatusOf, StatusAt, Due, MasterOfPublic, Step, Run;
    assert t != s.m;
    AroundListening(u, z, s, t);
    assert AheadOn(z, s, [], a, t);
    assert Ahead(z, s, [], a);
    assert NoneLost(z, x) by { SameLost(u, z, t, x); }
  }

  lemma SameLost(w: World, u: World, t: nat, x: nat)
    requires NoneLost(w, x) && u.whens == w.whens && |u.cells| == |w.cells| && t < |w.cells|
    requires (forall i :: 0 <= i < |w.cells| && i != t ==> u.cells[i] == w.cells[i]) && StatusAt(u, t).Waiting?
    ensures NoneLost(u, x)
  {
    hide StatusOf;
    if x < |w.whens| {
      forall a | a in u.whens[x].args ensures !Lost(u, a) { assert !Lost(w, a); }
    }
  }

  // ----- overtaking -----

  lemma TwoPieces(w: World, a: seq<Choice>, c: seq<Choice>)
    requires CellsOk(w) && c != []
    ensures (a + c)[..|a|] == a
    ensures Run(w, (a + c)[..|a| + 1]) == Run(Run(w, a), c[..1]) && Run(w, a + c) == Run(Run(w, a), c)
  {
    hide CellsOk, Run;
    RunAppend(w, a, c);
    RunAppend(w, a, c[..1]);
    assert (a + c)[..|a|] == a && (a + c)[..|a| + 1] == a + c[..1];
  }

  lemma Together(w: World, x: nat, p: nat, v: Val, pre: seq<Choice>, more: seq<Choice>)
    requires CellsOk(w) && x < |w.whens| && Promise(p) in w.whens[x].args && more != []
    requires NoneLost(Run(w, pre), x) && StatusAt(Run(Run(w, pre), more[..1]), p) == Settled(Fail, v)
    ensures FirstToFail(w, x, pre + more, |pre|, p, v)
    ensures Run(w, pre + more) == Run(Run(w, pre), more)
  {
    TwoPieces(w, pre, more);
    hide CellsOk, Run, NoneLost, StatusAt;
  }

  lemma OvertakesAtCall(w: World, args: seq<Arg>, p: nat, q: nat, o: Observer, v: Val, v2: Val) returns (after: seq<Choice>, k: nat)
    requires AllGood(w) && CanCall(w, args) && OwnPromises(w, args)
    requires PendingArg(w, args, p) && PendingArg(w, args, q) && p != q && AliveOn(w, p, o)
    ensures CellsOk(Calling(w, args)) && FirstToFail(Calling(w, args), |w.whens|, after, k, p, v)
    ensures StatusAt(Run(Calling(w, args), after), |w.cells|) == Settled(Fail, v2)
  {
    var s0 := CallMade(w, args);
    var pre, more := BothRejected(w, args, p, q, o, v, v2);
    hide AllGood, CanCall, Calling, OwnPromises, Run, Tracked, NoneLost, AliveOn, StatusAt, FirstToFail;
    after, k := pre + more, |pre|;
    Together(Calling(w, args), |w.whens|, p, v, pre, more);
  }

  lemma BothRejected(w: World, args: seq<Arg>, p: nat, q: nat, o: Observer, v: Val, v2: Val)
      returns (pre: seq<Choice>, more: seq<Choice>)
    requires AllGood(w) && CanCall(w, args) && OwnPromises(w, args)
    requires PendingArg(w, args, p) && PendingArg(w, args, q) && p != q && AliveOn(w, p, o)
    ensures CellsOk(Calling(w, args)) && more != [] && NoneLost(Run(Calling(w, args), pre), |w.whens|)
    ensures var z := Run(Calling(w, args), pre);
      StatusAt(Run(z, more[..1]), p) == Settled(Fail, v) && StatusAt(Run(z, more), |w.cells|) == Settled(Fail, v2)
  {
    var loop := EndsLoop(w, args);
    var u0 := Calling(w, args);
    hide CanCall, Calling, Ended, Planned, OwnPromises, Run, NoneLost, AliveOn, StatusAt, PendingArg;
    var some, s, a := MakePlan(w, Run(u0, loop), args, p, q, o, v);
    more := RejectBoth(Run(Run(u0, loop), some), s, a, v2);
    pre := loop + some;
    assert CellsOk(u0);
    hide AllGood;
    RunAppend(u0, loop, some);
  }

  /**
   In any run of any client that calls `when` on Deferreds of its own, none of them
   rejected: if o listens for failure on the pending p when the call is made and is
   client code, or forwards to something pending, and another promise q is pending,
   some continuation rejects p first, with v, and gives the master the later
   rejection of q, with v2.
   */
  lemma SomeListenerOvertakes(before: seq<Choice>, args: seq<Arg>, p: nat, q: nat, o: Observer, v: Val, v2: Val)
      returns (after: seq<Choice>, k: nat)
    requires var w := Run(START, before);
      && CanCall(w, args) && OwnPromises(w, args)
      && PendingArg(w, args, p) && PendingArg(w, args, q) && p != q && AliveOn(w, p, o)
    ensures CellsOk(Run(START, before)) && CellsOk(Calling(Run(START, before), args))
    ensures var w := Run(START, before);
      && FirstToFail(Calling(w, args), |w.whens|, after, k, p, v)
      && StatusAt(Run(Calling(w, args), after), |w.cells|) == Settled(Fail, v2)
  {
    StartAllGood();
    RunAllGood(START, before);
    after, k := OvertakesAtCall(Run(START, before), args, p, q, o, v, v2);
  }

  // ----- the exact condition -----

  /** Whatever happens after the call, the master takes the first rejection. */
  ghost predicate FirstAlwaysWins(w: World, args: seq<Arg>)
    requires CellsOk(w) && CellsOk(Calling(w, args))
  {
    forall after, k: nat, p: nat, v :: FirstToFail(Calling(w, args), |w.whens|, after, k, p, v) ==>
      Decides(Run(Calling(w, args), after), |w.cells|, v)
  }

  ghost predicate TwoPending(w: World, args: seq<Arg>) {
    exists p: nat, q: nat :: PendingArg(w, args, p) && PendingArg(w, args, q) && p != q
  }

  lemma HeardMeans(w: World, args: seq<Arg>) returns (p: nat, q: nat, o: Observer)
    requires OwnPromises(w, args) && TwoPending(w, args) && !Unheard(w, args)
    ensures PendingArg(w, args, p) && PendingArg(w, args, q) && p != q && AliveOn(w, p, o)
  {
    hide StatusAt, Due, Dead;
    var a :| a in args && a.Promise? && !UnheardAt(w, a.id);
    p := a.id;
    assert !Lost(w, a) && a == Promise(p);
    o :| o in Due(w.cells[p].d, Fail) && !Dead(w, o);
    var q0: nat, q1: nat :| PendingArg(w, args, q0) && PendingArg(w, args, q1) && q0 != q1;
    q := if q0 == p then q1 else q0;
  }

  lemma HeardLoses(w: World, args: seq<Arg>)
    requires AllGood(w) && CanCall(w, args) && OwnPromises(w, args) && TwoPending(w, args) && !Unheard(w, args)
    ensures CellsOk(Calling(w, args)) && !FirstAlwaysWins(w, args)
  {
    var p, q, o := HeardMeans(w, args);
    var after, k := OvertakesAtCall(w, args, p, q, o, Num(0), Num(1));
    hide AllGood, CanCall, OwnPromises, Calling, Run, FirstToFail, StatusAt, PendingArg, AliveOn;
    assert !Decides(Run(Calling(w, args), after), |w.cells|, Num(0));
  }

  lemma UnheardWins(w: World, args: seq<Arg>)
    requires AllGood(w) && CanCall(w, args) && Unheard(w, args)
    ensures CellsOk(Calling(w, args)) && FirstAlwaysWins(w, args)
  {
    var s := CallMade(w, args);
    assert CellsOk(Calling(w, args));
    hide AllGood, CanCall, Unheard, Calling, Run, FirstToFail, Decides, Tracked;
    forall after, k: nat, p: nat, v | FirstToFail(Calling(w, args), |w.whens|, after, k, p, v)
      ensures Decides(Run(Calling(w, args), after), |w.cells|, v)
    {
      FirstAtCall(w, args, after, k, p, v);
    }
  }

  /**
   In any run of any client that calls `when` on Deferreds of its own, none of them
   rejected and two of them pending: the master takes the first rejection in every
   continuation if and only if whoever listens for failure on a pending one when
   the call is made only forwards to something settled.
   */
  lemma FirstWinsIffUnheard(before: seq<Choice>, args: seq<Arg>)
    requires var w := Run(START, before); CanCall(w, args) && OwnPromises(w, args) && TwoPending(w, args)
    ensures CellsOk(Run(START, before)) && CellsOk(Calling(Run(START, before), args))
    ensures FirstAlwaysWins(Run(START, before), args) <==> Unheard(Run(START, before), args)
  {
    StartAllGood();
    RunAllGood(START, before);
    var w := Run(START, before);
    hide CanCall, OwnPromises, TwoPending, FirstAlwaysWins, Unheard, Run;
    if Unheard(w, args) { UnheardWins(w, args); } else { HeardLoses(w, args); }
  }

  // ----- at any later rest -----

  /** At rest the listener of the master is due on every pending promise. */
  lemma DueAtRest(w: World, x: nat, p: nat)
    requires AllGood(w) && Quiescent(w) && x < |w.whens| && NoneLost(w, x) && PendingArg(w, w.whens[x].args, p)
    ensures Forward(w.whens[x].master, Fail) in Due(w.cells[p].d, Fail)
  {
    var m := w.whens[x].master;
    MasterWaits(w, x, Promise(p));
    InvRecord(w, x);
    var i :| 0 <= i < |w.whens[x].args| && w.whens[x].args[i] == Promise(p);
    assert HearsRejection(w, x, i);
    assert CellOk(w, p);
    hide StatusOf, Due, Shape, ThenInv, WhenInv, AllTokens, WhenLive, StatusAt;
    assert w.stack == [UserCode(None)];
    var o :| o in Due(w.cells[p].d, Fail) && Carries(o, m, Fail);
    assert ObsOk(w, p, Fail, o);
  }

  lemma AroundAtRest(w: World, x: nat, p: nat, q: nat, v: Val, t: Option<nat>) returns (s: Plan)
    requires AllGood(w) && Quiescent(w) && x < |w.whens| && OwnPromises(w, w.whens[x].args)
    requires PendingArg(w, w.whens[x].args, p) && PendingArg(w, w.whens[x].args, q) && p != q
    requires t.Some? ==> !IsPublic(w, t.value)
    ensures s == Plan(w.stack, p, q, w.whens[x].master, v, 0, t) && Around(w, s) && NoneLost(w, x)
  {
    assert NoneLost(w, x) by { hide StatusAt; assert forall a :: a in w.whens[x].args && a.Promise? ==> !Lost(w, a); }
    s := Plan(w.stack, p, q, w.whens[x].master, v, 0, t);
    MasterWaits(w, x, Promise(p));
    InvRecord(w, x);
    DueAtRest(w, x, q);
    hide StatusOf, Due, Shape, ThenInv, WhenInv, AllTokens, WhenLive, StatusAt;
    assert IsPublic(w, Promise(p).id) && IsPublic(w, Promise(q).id);
  }

  /** What comes before the listener, if something alive does. */
  lemma NotClear(w: World, due: seq<Observer>, m: nat) returns (a: seq<Observer>, o: Observer)
    requires Forward(m, Fail) in due && !ClearIn(w, due, m)
    ensures a <= due && Forward(m, Fail) !in a && o in a && !Dead(w, o)
  {
    hide StatusAt;
    var j: nat := 0;
    while due[j] != Forward(m, Fail)
      invariant j < |due| && Forward(m, Fail) !in due[..j] && Forward(m, Fail) in due[j..]
      decreases |due| - j
    {
      assert due[j..] == [due[j]] + due[j + 1..];
      j := j + 1;
      assert due[..j] == due[..j - 1] + [due[j - 1]];
    }
    a := due[..j];
    var i :| 0 <= i < j && !Dead(w, due[i]);
    o := a[i];
  }

  lemma PlanAtRest(w: World, x: nat, p: nat, q: nat, v: Val) returns (pre: seq<Choice>, s: Plan, a: seq<Observer>)
    requires AllGood(w) && Quiescent(w) && x < |w.whens| && OwnPromises(w, w.whens[x].args)
    requires PendingArg(w, w.whens[x].args, p) && PendingArg(w, w.whens[x].args, q) && p != q
    requires !Clear(w, p, w.whens[x].master)
    ensures var z := Run(w, pre); AllGood(z) && Planned(z, s, a) && NoneLost(z, x)
    ensures s.p == p && s.q == q && s.m == w.whens[x].master && s.v == v
  {
    hide Shape, ThenInv, AllTokens, WhenLive, StatusOf, Due;
    s := AroundAtRest(w, x, p, q, v, None);
    DueAtRest(w, x, p);
    var o;
    a, o := NotClear(w, Due(w.cells[p].d, Fail), w.whens[x].master);
    AliveKinds(w, p, o);
    hide AllGood, WhenInv, StatusAt, OwnPromises, MasterOfPublic, NoneLost, AliveTarget, Dead;
    if IsClient(o) {
      pre := [];
      assert Planned(w, s, a);
    } else {
      assert !IsPublic(w, o.target) by { NotPublic(w, o.target); }
      s := AroundAtRest(w, x, p, q, v, Some(o.target));
      pre := ListenFirst(w, x, s, a, o.target);
    }
  }

  lemma NotPublic(w: World, t: nat)
    requires AliveTarget(w, t)
    ensures !IsPublic(w, t)
  {
  }

  /** Whatever happens from now on, the master of call x takes the first rejection. */
  ghost predicate FirstWinsFrom(w: World, x: nat)
    requires CellsOk(w) && x < |w.whens|
  {
    forall after, k: nat, p: nat, v :: FirstToFail(w, x, after, k, p, v) ==> Decides(Run(w, after), w.whens[x].master, v)
  }

  lemma ReadyWins(w: World, x: nat)
    requires AllGood(w) && Ready(w, x)
    ensures FirstWinsFrom(w, x)
  {
    assert CellsOk(w);
    hide AllGood, CellsOk, Ready, Run, FirstToFail, Decides, Struck;
    var m := w.whens[x].master;
    forall after, k: nat, p: nat, v | FirstToFail(w, x, after, k, p, v) ensures Decides(Run(w, after), m, v) {
      ReadyFirstWins(w, x, after, k, p, v);
      StruckDecides(Run(w, after), p, m, v);
    }
  }

  lemma NotReadyLoses(w: World, x: nat)
    requires AllGood(w) && Quiescent(w) && x < |w.whens| && OwnPromises(w, w.whens[x].args) && TwoPending(w, w.whens[x].args)
    requires !Ready(w, x)
    ensures !FirstWinsFrom(w, x)
  {
    var p, q := NotReadyMeans(w, x);
    hide OwnPromises, TwoPending, Ready, PendingArg, Clear, StatusAt, NoneLost, Run, FirstToFail, AllGood;
    var after, k := OvertakesAtRest(w, x, p, q, Num(0), Num(1));
    assert !Decides(Run(w, after), w.whens[x].master, Num(0)) by { hide Run, AllGood, FirstToFail, OwnPromises; }
  }

  lemma OvertakesAtRest(w: World, x: nat, p: nat, q: nat, v: Val, v2: Val) returns (after: seq<Choice>, k: nat)
    requires AllGood(w) && Quiescent(w) && x < |w.whens| && OwnPromises(w, w.whens[x].args)
    requires PendingArg(w, w.whens[x].args, p) && PendingArg(w, w.whens[x].args, q) && p != q
    requires !Clear(w, p, w.whens[x].master)
    ensures FirstToFail(w, x, after, k, p, v) && StatusAt(Run(w, after), w.whens[x].master) == Settled(Fail, v2)
  {
    var pre, s, a := PlanAtRest(w, x, p, q, v);
    var more := RejectBoth(Run(w, pre), s, a, v2);
    PendingIn(w, w.whens[x].args, p);
    hide AllGood, OwnPromises, PendingArg, Clear, StatusAt, NoneLost, Run, FirstToFail, Planned;
    Together(w, x, p, v, pre, more);
    after, k := pre + more, |pre|;
  }

  lemma PendingIn(w: World, args: seq<Arg>, p: nat)
    requires PendingArg(w, args, p)
    ensures Promise(p) in args
  {
  }

  lemma NotReadyMeans(w: World, x: nat) returns (p: nat, q: nat)
    requires x < |w.whens| && OwnPromises(w, w.whens[x].args) && TwoPending(w, w.whens[x].args) && !Ready(w, x)
    ensures PendingArg(w, w.whens[x].args, p) && PendingArg(w, w.whens[x].args, q) && p != q && !Clear(w, p, w.whens[x].master)
  {
    var args, m := w.whens[x].args, w.whens[x].master;
    var a :| a in args && !ReadyAt(w, a, m);
    p := a.id;
    assert a == Promise(p) && IsPublic(w, p) && !Lost(w, a);
    StatusKinds(w, p);
    hide StatusAt, Clear;
    var q0: nat, q1: nat :| PendingArg(w, args, q0) && PendingArg(w, args, q1) && q0 != q1;
    q := if q0 == p then q1 else q0;
  }

  /**
   The same at any rest of any run, for a call of `when` on the client's own
   Deferreds, none of them rejected and two pending: from there on the first
   rejection always wins if and only if only dead observers are due before the
   listener of `when` on every pending promise.
   */
  lemma FirstWinsIffReady(before: seq<Choice>, x: nat)
    requires var w := Run(START, before);
      Quiescent(w) && x < |w.whens| && OwnPromises(w, w.whens[x].args) && TwoPending(w, w.whens[x].args)
    ensures CellsOk(Run(START, before))
    ensures FirstWinsFrom(Run(START, before), x) <==> Ready(Run(START, before), x)
  {
    StartAllGood();
    RunAllGood(START, before);
    var w := Run(START, before);
    hide OwnPromises, TwoPending, FirstWinsFrom, Ready, Run;
    if Ready(w, x) { ReadyWins(w, x); } else { NotReadyLoses(w, x); }
  }

  // ----- rejections before the call -----

  const BOTH := [Promise(0), Promise(1)]

  /** Two Deferreds of the client; nobody listens. */
  ghost predicate Fresh2(w: World) {
    && AllGood(w) && w.stack == [UserCode(None)] && |w.cells| == 2 && w.whens == []
    && forall i :: 0 <= i < 2 ==> w.cells[i].origin == Public && Due(w.cells[i].d, Fail) == []
  }

  lemma MakeTwo() returns (make: seq<Choice>, w: World)
    ensures |make| == 2 && w == Run(START, make) && Fresh2(w)
    ensures StatusAt(w, 0) == Waiting && StatusAt(w, 1) == Waiting
  {
    var c := Act(MakeDeferred);
    make := [c, c];
    NewIsBare();
    StartAllGood();
    RunAllGood(START, [c, c]);
    w := Run(START, [c, c]);
    hide NewDfd, Bare, AllGood, StatusOf, Due;
    RunHead(START, [c, c]);
    var w1 := Step(START, c);
    assert w1.cells == [Cell(NewDfd(), Public)];
    assert [c, c][1..] == [c];
    RunOne(w1, c);
    assert w == Step(w1, c);
    assert w.cells == [Cell(NewDfd(), Public), Cell(NewDfd(), Public)];
    assert Due(NewDfd(), Fail) == [] by { FreshDue(); }
  }

  /** With nobody listening a rejection is all that happens. */
  lemma RejectAlone(w: World, d: nat, v: Val) returns (u: World)
    requires Fresh2(w) && d < 2 && StatusAt(w, d) == Waiting
    ensures CellsOk(w) && u == Step(w, Act(Settle(d, Fail, v))) && Fresh2(u)
    ensures StatusAt(u, d) == Settled(Fail, v) && StatusAt(u, 1 - d) == StatusAt(w, 1 - d)
  {
    u := Step(w, Act(Settle(d, Fail, v)));
    StepAllGood(w, Act(Settle(d, Fail, v)));
    assert Shape(w) && CellsOk(w) && WhenInv(w) && IsPublic(w, d);
    hide AllGood, StatusOf, Due, TotalDue, Step, Shape, CellsOk, WhenInv, HitOnly, Rolling, StatusAt, Handed;
    Rejects(w, d, v);
    AloneHit(w, u, d, v);
  }

  lemma AloneHit(w: World, u: World, d: nat, v: Val)
    requires Fresh2(w) && AllGood(u) && d < 2 && StatusAt(w, d) == Waiting && u.whens == w.whens
    requires HitOnly(w, u, d, v) && Rolling(u, w.stack, Handed(d, Due(w.cells[d].d, Fail), v), v)
    ensures Fresh2(u) && StatusAt(u, d) == Settled(Fail, v) && StatusAt(u, 1 - d) == StatusAt(w, 1 - d)
  {
    hide AllGood, StatusOf, Due, TotalDue;
    OthersSame(w, u, d, v, 1 - d);
    hide StatusAt;
    assert Due(w.cells[d].d, Fail) == [];
    assert Handed(d, [], v) == [];
    assert [] + w.stack == w.stack;
  }

  lemma LostAtRest(w: World, v: Val)
    requires Fresh2(w) && StatusAt(w, 0) == Settled(Fail, v)
    ensures CanCall(w, BOTH) && FirstLost(w, BOTH, 0) && LostValue(w, BOTH, 0) == v
  {
    QuiescentIdle(w, 0, Fail);
    hide AllGood, StatusOf, Due;
  }

  lemma CallLoses(w: World, v: Val) returns (after: seq<Choice>)
    requires Fresh2(w) && StatusAt(w, 0) == Settled(Fail, v)
    ensures CellsOk(w) && CellsOk(Calling(w, BOTH)) && StatusAt(Run(Calling(w, BOTH), after), 2) == Settled(Fail, v)
  {
    LostAtRest(w, v);
    after := EndsLoop(w, BOTH);
    LowestAtCall(w, BOTH, after, 0);
    hide AllGood, StatusOf, StatusAt, Due, Run, Calling, CanCall, FirstLost, LostValue, Ended;
    EndedArgs(w, Run(Calling(w, BOTH), after), BOTH);
  }

  lemma RejectNext(before: seq<Choice>, w: World, d: nat, v: Val) returns (more: seq<Choice>, u: World)
    requires w == Run(START, before) && Fresh2(w) && d < 2 && StatusAt(w, d) == Waiting
    ensures more == before + [Act(Settle(d, Fail, v))] && u == Run(START, more) && Fresh2(u)
    ensures StatusAt(u, d) == Settled(Fail, v) && StatusAt(u, 1 - d) == StatusAt(w, 1 - d)
  {
    var c := Act(Settle(d, Fail, v));
    more := before + [c];
    RunSnoc(START, before, c);
    u := RejectAlone(w, d, v);
  }

  /**
   Deferred 1 is rejected first, with v1, then Deferred 0, with v0, and then `when`
   is called on 0 and 1. Without any re-entrancy the master is rejected with v0.
   */
  lemma EarlierRejectionPassedOver(v0: Val, v1: Val) returns (before: seq<Choice>, after: seq<Choice>)
    ensures |before| == 4 && CellsOk(Run(START, before[..3])) && CellsOk(Run(START, before)) && CellsOk(Calling(Run(START, before), BOTH))
    ensures var early, w := Run(START, before[..3]), Run(START, before);
      && StatusAt(early, 1) == Settled(Fail, v1) && StatusAt(early, 0) == Waiting
      && StatusAt(w, 0) == Settled(Fail, v0) && StatusAt(w, 1) == Settled(Fail, v1)
      && StatusAt(Run(Calling(w, BOTH), after), 2) == Settled(Fail, v0)
  {
    var make, w2 := MakeTwo();
    hide Fresh2, StatusAt, Step, Run, Calling, CellsOk;
    var three, early := RejectNext(make, w2, 1, v1);
    var w;
    before, w := RejectNext(three, early, 0, v0);
    assert before[..3] == three;
    after := CallLoses(w, v0);
  }
}
