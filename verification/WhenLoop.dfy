/**
 The loop in which `when` registers its listeners, followed step by step from the
 call until client code is in control again. No client code runs in between, so
 what the loop does is determined by the state at the call.
 */
module WhenLoop {
  import opened Prelude
  import CallbackList
  import opened Observers
  import opened Deferred
  import opened DeferredRuns
  import opened DeferredEffects
  import opened Promises
  import opened PromiseShape
  import opened Then
  import opened Countdown
  import opened WhenOutcome

  // ----- where the loop stands -----

  /** What is on the stack above the caller: a settlement of the master, a suspended list, the loop's own frames. */
  datatype Point = Point(fire: Option<seq<Act>>, cb: Option<Callback>, acts: seq<Act>, rest: seq<Frame>, next: nat)

  datatype Callback = Callback(d: nat, kind: Kind)

  /** The listener of call x for list k of the promise at position i. */
  function ObsFor(x: nat, m: nat, i: nat, k: Kind): Observer {
    match k case Done => Collect(x, i) case Fail => Forward(m, Fail) case Progress => CollectProgress(x, i)
  }

  function AddFor(x: nat, m: nat, p: nat, i: nat, k: Kind): Act {
    GAdd(p, k, ObsFor(x, m, i, k))
  }

  /** The rest of the loop, once the fail listeners of the positions below next are registered. */
  ghost predicate ActsAt(c: When, x: nat, acts: seq<Act>, next: nat) {
    var m, n := c.master, |c.args|;
    || (acts == [] && next == n)
    || (acts == [GVisit(x, next)] && next <= n)
    || (next < n && c.args[next].Promise? && var p := c.args[next].id;
      || acts == [AddFor(x, m, p, next, Done), AddFor(x, m, p, next, Fail), AddFor(x, m, p, next, Progress), GVisit(x, next + 1)]
      || acts == [AddFor(x, m, p, next, Fail), AddFor(x, m, p, next, Progress), GVisit(x, next + 1)])
    || (0 < next <= n && c.args[next - 1].Promise?
      && acts == [AddFor(x, m, c.args[next - 1].id, next - 1, Progress), GVisit(x, next)])
  }

  function Fired(fire: Option<seq<Act>>): seq<Frame> {
    if fire.Some? then [Glue(fire.value)] else []
  }

  function Suspension(cb: Option<Callback>): seq<Frame> {
    if cb.Some? then [InCallback(cb.value.d, cb.value.kind)] else []
  }

  ghost predicate Stacked(base: seq<Frame>, w: World, s: Point) {
    && w.stack == Fired(s.fire) + (Suspension(s.cb) + ([Glue(s.acts)] + s.rest))
    && |base| <= |s.rest| && s.rest[|s.rest| - |base|..] == base
    && (forall j :: 0 <= j < |s.rest| - |base| ==> s.rest[j] == Glue([]))
  }

  /** Nobody listens to the master yet. */
  ghost predicate Bare(d: Dfd) {
    DInv(d) && Due(d, Done) == [] && Due(d, Fail) == [] && d.progress.added == []
  }

  ghost predicate FireOk(fire: Option<seq<Act>>, m: nat) {
    fire.Some? && fire.value != [] ==> |fire.value| == 1 && fire.value[0].GFire? && fire.value[0].target == m
  }

  /** The suspended list has nothing left to call. */
  ghost predicate CallbackOk(w: World, cb: Option<Callback>, m: nat) {
    cb.Some? ==>
      && cb.value.d < m && cb.value.d < |w.cells| && DInv(w.cells[cb.value.d].d)
      && Firing(w.cells[cb.value.d].d, cb.value.kind) && FinishedD(w.cells[cb.value.d].d, cb.value.kind).1 == None
  }

  ghost predicate Framed(w: World, m: nat, s: Point) {
    FireOk(s.fire, m) && CallbackOk(w, s.cb, m)
  }

  /** The call of `when` as the world has it: made in w0, its loop still running or just over. */
  ghost predicate Called(w0: World, w: World, x: nat) {
    && x == |w0.whens| && |w.whens| == x + 1
    && w.whens[x].master == |w0.cells| && |w.cells| == |w0.cells| + 1
    && (forall a :: a in w.whens[x].args && a.Promise? ==> a.id < |w0.cells|)
    && (forall p: nat :: p < |w0.cells| ==> StatusAt(w, p) == StatusAt(w0, p))
    && Bare(w.cells[|w0.cells|].d)
  }

  ghost predicate OnLoop(w0: World, w: World, x: nat, s: Point) {
    && Called(w0, w, x) && Stacked(w0.stack, w, s) && Framed(w, |w0.cells|, s)
    && ActsAt(w.whens[x], x, s.acts, s.next)
  }

  // ----- operations in the loop -----

  lemma BareFire(d: Dfd, k: Kind, v: Val)
    requires Bare(d)
    ensures FireD(d, k, v).1 == None && Bare(FireD(d, k, v).0)
    ensures StatusOf(FireD(d, k, v).0) == if k == Progress || StatusOf(d).Settled? then StatusOf(d) else Settled(k, v)
  {
    FireEffect(d, k, v);
    FireTraffic(d, k, v);
    if k != Progress { SettleDue(d, k, v); }
  }

  lemma NewIsBare()
    ensures Bare(NewDfd()) && StatusOf(NewDfd()) == Waiting
  {
    NewDfdInv();
    FreshDue();
  }

  /** An observer that is called as soon as it is registered is the last one of that walk. */
  lemma AddedIsLast(d: Dfd, k: Kind, o: Observer)
    requires DInv(d) && AddD(d, k, o).1.Some?
    ensures Firing(AddD(d, k, o).0, k) && FinishedD(AddD(d, k, o).0, k).1 == None
  {
    var r := AddD(d, k, o);
    AddEffect(d, k, o);
    if k == Progress {
      ProgressIsLast(d, o);
    } else {
      AddDue(d, k, o);
      FinishedDue(r.0, k);
    }
  }

  lemma ProgressIsLast(d: Dfd, o: Observer)
    requires DInv(d) && AddD(d, Progress, o).1.Some?
    ensures FinishedD(AddD(d, Progress, o).0, Progress).1 == None
  {
    AddProgress(d, o);
    var l := d.progress.list;
    CallbackList.AppendedPlain(l.list.value, [Client(o)]);
    var added := l.(list := Some(l.list.value + [Client(o)]), firingStart := |l.list.value|);
    HeadAtCall(added, l.memory.value, false);
    var r := AddD(d, Progress, o).0.progress.list;
    assert r.firingIndex + 1 == r.firingLength;
    ReturnAdvances(r);
  }

  // ----- what the loop decides, and what it registers -----

  /** At the call, the promise at position i was rejected and not in the middle of running its fail callbacks. */
  ghost predicate LostAt(w0: World, args: seq<Arg>, i: nat) {
    i < |args| && Lost(w0, args[i]) && args[i].id < |w0.cells| && !Firing(w0.cells[args[i].id].d, Fail)
  }

  function LostValue(w0: World, args: seq<Arg>, i: nat): Val {
    if i < |args| && Lost(w0, args[i]) then StatusAt(w0, args[i].id).value else Undefined
  }

  ghost predicate FirstLost(w0: World, args: seq<Arg>, i: nat) {
    LostAt(w0, args, i) && forall j: nat :: j < i ==> !LostAt(w0, args, j)
  }

  ghost predicate FailedWith(w: World, m: nat, fire: Option<seq<Act>>, v: Val) {
    StatusAt(w, m) == Settled(Fail, v) || (StatusAt(w, m).Waiting? && fire == Some([GFire(m, Fail, v)]))
  }

  ghost predicate NotFailed(w: World, m: nat, fire: Option<seq<Act>>) {
    && (StatusAt(w, m).Settled? ==> StatusAt(w, m).kind != Fail)
    && !Fails(fire)
  }

  ghost predicate Fails(fire: Option<seq<Act>>) {
    fire.Some? && fire.value != [] && fire.value[0].GFire? && fire.value[0].kind == Fail
  }

  /** The first position found lost so far has decided. */
  ghost predicate Verdict(w0: World, w: World, args: seq<Arg>, fire: Option<seq<Act>>, next: nat) {
    var m := |w0.cells|;
    && FireOk(fire, m)
    && (forall i: nat :: i < next && FirstLost(w0, args, i) ==> FailedWith(w, m, fire, LostValue(w0, args, i)))
    && ((forall i: nat :: i < next ==> !LostAt(w0, args, i)) ==> NotFailed(w, m, fire))
  }

  ghost predicate Registered(args: seq<Arg>, p: nat, next: nat) {
    exists i: nat :: i < next && i < |args| && args[i] == Promise(p)
  }

  /** On a pending promise the listener of `when` comes right after the fail observers it had at the call. */
  ghost predicate DueGrown(d0: seq<Observer>, d: seq<Observer>, m: nat, registered: bool) {
    d0 <= d && (|d| > |d0| ==> d[|d0|] == Forward(m, Fail)) && (registered ==> |d| > |d0|)
  }

  ghost predicate DuesGrown(w0: World, w: World, args: seq<Arg>, next: nat) {
    |w0.cells| <= |w.cells| && forall p: nat :: p < |w0.cells| && StatusAt(w0, p).Waiting? ==>
      DueGrown(Due(w0.cells[p].d, Fail), Due(w.cells[p].d, Fail), |w0.cells|, Registered(args, p, next))
  }

  ghost predicate Tracked(w0: World, w: World, x: nat, s: Point) {
    OnLoop(w0, w, x, s) && Verdict(w0, w, w.whens[x].args, s.fire, s.next) && DuesGrown(w0, w, w.whens[x].args, s.next)
  }

  // ----- the steps -----

  function FireCost(fire: Option<seq<Act>>): nat {
    if fire.None? then 0 else 1 + |fire.value|
  }

  function ActsCost(acts: seq<Act>, n: nat): nat {
    if acts == [] then 0
    else if acts[|acts| - 1].GVisit? && acts[|acts| - 1].i <= n then 20 * (n - acts[|acts| - 1].i) + 5 * |acts| else 0
  }

  /** A bound on the steps until client code is in control. */
  function Cost(s: Point, n: nat): nat {
    FireCost(s.fire) + (if s.cb.Some? then 1 else 0) + ActsCost(s.acts, n) + |s.rest|
  }

  /** One frame less, or a shorter one above the loop's own. */
  lemma Cheaper(s: Point, fire: Option<seq<Act>>, n: nat)
    requires FireCost(fire) < FireCost(s.fire)
    ensures Cost(s.(fire := fire), n) < Cost(s, n)
  {
  }

  lemma CheaperWithout(s: Point, n: nat)
    requires s.cb.Some?
    ensures Cost(s.(cb := None), n) < Cost(s, n)
  {
  }

  /** The call itself: master and arguments are fixed. */
  ghost predicate SameCall(w: World, u: World, x: nat) {
    && |u.whens| == |w.whens| && |u.cells| == |w.cells|
    && (x < |w.whens| ==> u.whens[x].args == w.whens[x].args && u.whens[x].master == w.whens[x].master)
  }

  lemma CalledAfter(w0: World, w: World, u: World, x: nat)
    requires Called(w0, w, x) && SameCall(w, u, x) && Bare(u.cells[|w0.cells|].d)
    requires forall p: nat :: p < |w0.cells| ==> StatusAt(u, p) == StatusAt(w, p)
    ensures Called(w0, u, x)
  {
    hide Bare, StatusOf;
  }

  /** Of the fail sides below the master only that of d may have changed. */
  lemma DuesAfter(w0: World, w: World, u: World, args: seq<Arg>, next: nat, next1: nat, d: nat)
    requires DuesGrown(w0, w, args, next) && |u.cells| == |w.cells|
    requires forall p: nat :: p < |w0.cells| && p != d ==> u.cells[p] == w.cells[p]
    requires forall p: nat :: p != d && Registered(args, p, next1) ==> Registered(args, p, next)
    requires d < |w0.cells| && StatusAt(w0, d).Waiting? ==>
      DueGrown(Due(w0.cells[d].d, Fail), Due(u.cells[d].d, Fail), |w0.cells|, Registered(args, d, next1))
    ensures DuesGrown(w0, u, args, next1)
  {
    hide Due, StatusOf, Registered;
  }

  lemma RegisteredNext(args: seq<Arg>, next: nat, p: nat)
    requires next < |args|
    ensures Registered(args, p, next + 1) <==> Registered(args, p, next) || args[next] == Promise(p)
  {
    if Registered(args, p, next + 1) {
      var i: nat :| i < next + 1 && i < |args| && args[i] == Promise(p);
      if i != next { assert Registered(args, p, next); }
    }
    if Registered(args, p, next) {
      var i: nat :| i < next && i < |args| && args[i] == Promise(p);
      assert i < next + 1;
    }
    if args[next] == Promise(p) { assert next < next + 1; }
  }

  lemma VerdictKept(w0: World, w: World, u: World, args: seq<Arg>, fire: Option<seq<Act>>, next: nat)
    requires Verdict(w0, w, args, None, next) && StatusAt(u, |w0.cells|) == StatusAt(w, |w0.cells|)
    requires FireOk(fire, |w0.cells|) && !Fails(fire)
    ensures Verdict(w0, u, args, fire, next)
  {
    hide StatusOf, LostAt;
  }

  lemma VerdictPasses(w0: World, w: World, args: seq<Arg>, fire: Option<seq<Act>>, next: nat)
    requires Verdict(w0, w, args, fire, next) && !LostAt(w0, args, next)
    ensures Verdict(w0, w, args, fire, next + 1)
  {
    hide StatusOf, LostAt, FailedWith, NotFailed, FireOk;
    forall i: nat | i < next + 1 && FirstLost(w0, args, i)
      ensures FailedWith(w, |w0.cells|, fire, LostValue(w0, args, i))
    {
      assert i != next;
    }
  }

  /** The promise at position next is lost: the master fails with its value, unless it has failed before. */
  lemma VerdictLost(w0: World, w: World, u: World, args: seq<Arg>, fire: Option<seq<Act>>, next: nat)
    requires Verdict(w0, w, args, None, next) && LostAt(w0, args, next)
    requires StatusAt(u, |w0.cells|) == StatusAt(w, |w0.cells|)
    requires StatusAt(w, |w0.cells|).Settled? ==> StatusAt(w, |w0.cells|).kind == Fail
    requires fire == Some([GFire(|w0.cells|, Fail, LostValue(w0, args, next))])
    ensures Verdict(w0, u, args, fire, next + 1)
  {
    hide StatusOf, LostAt;
    assert FailedWith(w, |w0.cells|, None, LostValue(w0, args, next)) || StatusAt(w, |w0.cells|).Waiting? || !FirstLost(w0, args, next);
  }

  // ----- the frame that settles or notifies the master -----

  /** Where only the stack and the counters of the call changed. */
  lemma SameDeferreds(w0: World, w: World, u: World, x: nat, s: Point)
    requires Tracked(w0, w, x, s) && SameCall(w, u, x) && u.cells == w.cells
    ensures Called(w0, u, x) && DuesGrown(w0, u, u.whens[x].args, s.next) && CallbackOk(u, s.cb, |w0.cells|)
    ensures StatusAt(u, |w0.cells|) == StatusAt(w, |w0.cells|)
  {
    hide StatusOf, Due, DInv, Bare, LostAt, Verdict, ActsAt;
    CalledAfter(w0, w, u, x);
    DuesAfter(w0, w, u, w.whens[x].args, s.next, s.next, |w0.cells|);
  }

  lemma FirePopped(w0: World, w: World, x: nat, s: Point, c: Choice) returns (t: Point)
    requires CellsOk(w) && Tracked(w0, w, x, s) && s.fire == Some([])
    ensures Tracked(w0, Step(w, c), x, t) && Cost(t, |w.whens[x].args|) < Cost(s, |w.whens[x].args|)
    ensures SameCall(w, Step(w, c), x)
  {
    var u := FirePoppedWorld(w0, w, s, c);
    t := s.(fire := None);
    SameDeferreds(w0, w, u, x, s);
    Cheaper(s, None, |w.whens[x].args|);
    VerdictPopped(w0, w, u, w.whens[x].args, s.next);
    hide CellsOk, Step, Called, DuesGrown, ActsAt, CallbackOk, Cost, Verdict, Stacked;
  }

  lemma FirePoppedWorld(w0: World, w: World, s: Point, c: Choice) returns (u: World)
    requires CellsOk(w) && Stacked(w0.stack, w, s) && s.fire == Some([])
    ensures u == Step(w, c) && u.cells == w.cells && u.whens == w.whens && Stacked(w0.stack, u, s.(fire := None))
  {
    var below := Suspension(s.cb) + ([Glue(s.acts)] + s.rest);
    assert w.stack[1..] == below && w.stack[0] == Glue([]);
    u := w.(stack := below);
    assert Step(w, c) == u;
    assert below == [] + below;
  }

  lemma VerdictPopped(w0: World, w: World, u: World, args: seq<Arg>, next: nat)
    requires Verdict(w0, w, args, Some([]), next) && StatusAt(u, |w0.cells|) == StatusAt(w, |w0.cells|)
    ensures Verdict(w0, u, args, None, next)
  {
    hide StatusOf, LostAt;
  }

  lemma FireFired(w0: World, w: World, x: nat, s: Point, c: Choice) returns (t: Point)
    requires CellsOk(w) && Tracked(w0, w, x, s) && s.fire.Some? && s.fire.value != []
    ensures Tracked(w0, Step(w, c), x, t) && Cost(t, |w.whens[x].args|) < Cost(s, |w.whens[x].args|)
    ensures SameCall(w, Step(w, c), x)
  {
    FiredWorld(w0, w, x, s, c);
    FiredDeferreds(w0, w, Step(w, c), x, s);
    t := s.(fire := Some([]));
    Cheaper(s, Some([]), |w.whens[x].args|);
    FiredStack(w0.stack, w, Step(w, c), s);
    hide CellsOk, Step, ActsAt, Called, DuesGrown, Verdict, CallbackOk, FireD, ListsWf, Cost, Stacked;
  }

  lemma FiredStack(base: seq<Frame>, w: World, u: World, s: Point)
    requires Stacked(base, w, s) && u.stack == Fired(Some([])) + (Suspension(s.cb) + ([Glue(s.acts)] + s.rest))
    ensures Stacked(base, u, s.(fire := Some([])))
  {
  }

  lemma FiredDeferreds(w0: World, w: World, u: World, x: nat, s: Point)
    requires CellsOk(w) && Tracked(w0, w, x, s) && s.fire.Some? && s.fire.value != []
    requires var a := s.fire.value[0]; var m := |w0.cells|;
      u.whens == w.whens && u.cells == w.cells[m := w.cells[m].(d := FireD(w.cells[m].d, a.kind, a.arg).0)]
    ensures SameCall(w, u, x) && Called(w0, u, x) && DuesGrown(w0, u, u.whens[x].args, s.next) && CallbackOk(u, s.cb, |w0.cells|)
    ensures Verdict(w0, u, u.whens[x].args, Some([]), s.next)
  {
    var m := |w0.cells|;
    var a := s.fire.value[0];
    assert s.fire.value == [a];
    BareFire(w.cells[m].d, a.kind, a.arg);
    hide DInv, StatusOf, Due, ListsWf, Bare, FireD, ActsAt, CellsOk, Stacked;
    CalledAfter(w0, w, u, x);
    DuesAfter(w0, w, u, w.whens[x].args, s.next, s.next, m);
    FiredVerdict(w0, w, u, w.whens[x].args, a, s.next);
  }

  lemma FiredWorld(w0: World, w: World, x: nat, s: Point, c: Choice)
    requires CellsOk(w) && Tracked(w0, w, x, s) && s.fire.Some? && s.fire.value != []
    ensures var a := s.fire.value[0]; var m := |w0.cells|;
      Step(w, c) == w.(stack := Fired(Some([])) + (Suspension(s.cb) + ([Glue(s.acts)] + s.rest)),
                       cells := w.cells[m := w.cells[m].(d := FireD(w.cells[m].d, a.kind, a.arg).0)])
  {
    var m := |w0.cells|;
    var a := s.fire.value[0];
    var below := Suspension(s.cb) + ([Glue(s.acts)] + s.rest);
    assert w.stack[1..] == below && w.stack[0] == Glue(s.fire.value);
    assert s.fire.value[1..] == [];
    BareFire(w.cells[m].d, a.kind, a.arg);
    hide DInv, FireD, StatusOf, Due, ListsWf, Bare, Verdict, DuesGrown;
  }

  lemma FiredVerdict(w0: World, w: World, u: World, args: seq<Arg>, a: Act, next: nat)
    requires Verdict(w0, w, args, Some([a]), next) && a.GFire?
    requires StatusAt(u, |w0.cells|) ==
      if a.kind == Progress || StatusAt(w, |w0.cells|).Settled? then StatusAt(w, |w0.cells|) else Settled(a.kind, a.arg)
    ensures Verdict(w0, u, args, Some([]), next)
  {
    hide StatusOf, LostAt;
  }

  // ----- a suspended list has no more callbacks -----

  /** Where one Deferred below the master changed, keeping its status. */
  lemma CellDeferreds(w0: World, w: World, u: World, x: nat, s: Point, d: nat, r0: Dfd, next1: nat)
    requires Tracked(w0, w, x, s) && d < |w0.cells| && SameCall(w, u, x)
    requires u.cells == w.cells[d := w.cells[d].(d := r0)] && StatusOf(r0) == StatusOf(w.cells[d].d)
    requires forall p: nat :: p != d && Registered(w.whens[x].args, p, next1) ==> Registered(w.whens[x].args, p, s.next)
    requires StatusAt(w0, d).Waiting? ==>
      DueGrown(Due(w0.cells[d].d, Fail), Due(r0, Fail), |w0.cells|, Registered(w.whens[x].args, d, next1))
    ensures Called(w0, u, x) && DuesGrown(w0, u, u.whens[x].args, next1)
    ensures StatusAt(u, |w0.cells|) == StatusAt(w, |w0.cells|)
  {
    hide StatusOf, Due, DInv, Bare, LostAt, Verdict, ActsAt, DueGrown, Registered;
    CalledAfter(w0, w, u, x);
    DuesAfter(w0, w, u, w.whens[x].args, s.next, next1, d);
  }

  lemma CallbackDone(w0: World, w: World, x: nat, s: Point, c: Choice) returns (t: Point)
    requires CellsOk(w) && Tracked(w0, w, x, s) && s.fire.None? && s.cb.Some?
    ensures Tracked(w0, Step(w, c), x, t) && Cost(t, |w.whens[x].args|) < Cost(s, |w.whens[x].args|)
    ensures SameCall(w, Step(w, c), x)
  {
    var d, k := s.cb.value.d, s.cb.value.kind;
    var u := CallbackWorld(w0, w, x, s, c);
    CallbackDue(w0, w, x, s);
    CellDeferreds(w0, w, u, x, s, d, FinishedD(w.cells[d].d, k).0, s.next);
    t := s.(cb := None);
    VerdictKept(w0, w, u, w.whens[x].args, None, s.next);
    CheaperWithout(s, |w.whens[x].args|);
    ResumedStack(w0.stack, w, u, s);
    hide CellsOk, Step, ActsAt, Called, DuesGrown, FinishedD, ListsWf, CallbackOk, DInv, Firing, Verdict, Cost, Stacked, StatusOf, Due;
  }

  lemma ResumedStack(base: seq<Frame>, w: World, u: World, s: Point)
    requires Stacked(base, w, s) && s.fire.None? && u.stack == [Glue(s.acts)] + s.rest
    ensures Stacked(base, u, s.(cb := None))
  {
    assert [Glue(s.acts)] + s.rest == [] + ([] + ([Glue(s.acts)] + s.rest));
  }

  lemma CallbackDue(w0: World, w: World, x: nat, s: Point)
    requires Tracked(w0, w, x, s) && s.cb.Some?
    ensures var D := w.cells[s.cb.value.d].d; var r := FinishedD(D, s.cb.value.kind).0;
      && StatusOf(r) == StatusOf(D)
      && (StatusAt(w0, s.cb.value.d).Waiting? ==>
        DueGrown(Due(w0.cells[s.cb.value.d].d, Fail), Due(r, Fail), |w0.cells|, Registered(w.whens[x].args, s.cb.value.d, s.next)))
  {
    var D, k := w.cells[s.cb.value.d].d, s.cb.value.kind;
    FinishedEffect(D, k);
    if k == Fail { FiringIsSettled(D, k); assert StatusOf(D).Settled?; }
    hide DInv, Firing, Due, FinishedD, StatusOf, Bare, LostAt, Verdict, ActsAt, DueGrown, Registered;
    assert StatusAt(w, s.cb.value.d) == StatusAt(w0, s.cb.value.d);
  }

  lemma CallbackWorld(w0: World, w: World, x: nat, s: Point, c: Choice) returns (u: World)
    requires CellsOk(w) && Tracked(w0, w, x, s) && s.fire.None? && s.cb.Some?
    ensures u == Step(w, c) && ListsWf(w.cells[s.cb.value.d].d)
    ensures var d := s.cb.value.d;
      u == w.(stack := [Glue(s.acts)] + s.rest, cells := w.cells[d := w.cells[d].(d := FinishedD(w.cells[d].d, s.cb.value.kind).0)])
  {
    var d, k := s.cb.value.d, s.cb.value.kind;
    var below := [Glue(s.acts)] + s.rest;
    assert w.stack == [] + ([InCallback(d, k)] + below);
    assert w.stack[1..] == below && w.stack[0] == InCallback(d, k);
    hide DInv, FinishedD, StatusOf, Due, Bare, Verdict, DuesGrown, ActsAt, LostAt;
    u := Step(w, c);
  }

  // ----- the end of a visit and of the loop -----

  /** The loop is over: client code is where it was before the call. */
  ghost predicate Over(w0: World, w: World, x: nat) {
    && Called(w0, w, x) && w.stack == w0.stack
    && Verdict(w0, w, w.whens[x].args, None, |w.whens[x].args|) && DuesGrown(w0, w, w.whens[x].args, |w.whens[x].args|)
  }

  lemma FramePopped(w0: World, w: World, x: nat, s: Point, c: Choice) returns (t: Option<Point>)
    requires CellsOk(w) && Tracked(w0, w, x, s) && s.fire.None? && s.cb.None? && s.acts == []
    ensures t.None? ==> Over(w0, Step(w, c), x)
    ensures t.Some? ==> Tracked(w0, Step(w, c), x, t.value) && Cost(t.value, |w.whens[x].args|) < Cost(s, |w.whens[x].args|)
    ensures SameCall(w, Step(w, c), x)
  {
    var u := w.(stack := s.rest);
    FramePoppedWorld(w0, w, s, c);
    FramePoppedDeferreds(w0, w, u, x, s);
    hide Step, CellsOk, Called, DuesGrown, CallbackOk, Verdict;
    if |s.rest| == |w0.stack| {
      t := None;
      assert s.rest == w0.stack;
    } else {
      var p := Point(None, None, [], s.rest[1..], s.next);
      t := Some(p);
      RestPopped(w0, w, s);
    }
  }

  lemma FramePoppedWorld(w0: World, w: World, s: Point, c: Choice)
    requires CellsOk(w) && Stacked(w0.stack, w, s) && s.fire.None? && s.cb.None? && s.acts == []
    ensures Step(w, c) == w.(stack := s.rest)
  {
    assert w.stack == [] + ([] + ([Glue([])] + s.rest));
    assert w.stack[1..] == s.rest && w.stack[0] == Glue([]);
  }

  lemma RestPopped(w0: World, w: World, s: Point)
    requires Stacked(w0.stack, w, s) && |s.rest| > |w0.stack|
    ensures Stacked(w0.stack, w.(stack := s.rest), Point(None, None, [], s.rest[1..], s.next))
  {
    var rest := s.rest[1..];
    assert s.rest == [] + ([] + ([Glue([])] + rest));
    assert rest[|rest| - |w0.stack|..] == w0.stack;
  }

  lemma FramePoppedDeferreds(w0: World, w: World, u: World, x: nat, s: Point)
    requires Tracked(w0, w, x, s) && s.fire.None? && s.cb.None? && s.acts == [] && u == w.(stack := s.rest)
    ensures Called(w0, u, x) && DuesGrown(w0, u, u.whens[x].args, s.next) && s.next == |u.whens[x].args|
    ensures Verdict(w0, u, u.whens[x].args, None, s.next)
  {
    hide StatusOf, Due, DInv, Bare, LostAt, Stacked;
    SameDeferreds(w0, w, u, x, s) by { hide Stacked; }
    VerdictKept(w0, w, u, w.whens[x].args, None, s.next);
  }

  // ----- a round of the loop begins -----

  lemma VisitWorld(w0: World, w: World, x: nat, s: Point, c: Choice)
    requires CellsOk(w) && Stacked(w0.stack, w, s) && s.fire.None? && s.cb.None? && s.acts == [GVisit(x, s.next)]
    ensures Step(w, c) == Visit(w.(stack := [Glue([])] + s.rest), x, s.next)
  {
    assert w.stack == [] + ([] + ([Glue(s.acts)] + s.rest));
    assert w.stack[1..] == s.rest && w.stack[0] == Glue(s.acts) && s.acts[1..] == [];
    hide Visit, ListsWf;
  }

  /** The finished part of the loop's frame stays below as an empty frame. */
  lemma Nested(base: seq<Frame>, w: World, s: Point, u: World, acts: seq<Act>, next: nat)
    requires Stacked(base, w, s) && u.stack == [Glue(acts)] + ([Glue([])] + s.rest)
    ensures Stacked(base, u, Point(None, None, acts, [Glue([])] + s.rest, next))
  {
    var rest := [Glue([])] + s.rest;
    assert u.stack == [] + ([] + ([Glue(acts)] + rest));
    assert rest[|rest| - |base|..] == s.rest[|s.rest| - |base|..];
    forall j | 0 <= j < |rest| - |base| ensures rest[j] == Glue([]) {
      if j > 0 { assert rest[j] == s.rest[j - 1]; }
    }
  }

  lemma VisitDone(w0: World, w: World, x: nat, s: Point, c: Choice) returns (t: Point)
    requires CellsOk(w) && Tracked(w0, w, x, s) && s.fire.None? && s.cb.None? && s.acts == [GVisit(x, s.next)]
    ensures Tracked(w0, Step(w, c), x, t) && Cost(t, |w.whens[x].args|) < Cost(s, |w.whens[x].args|)
    ensures SameCall(w, Step(w, c), x)
  {
    VisitWorld(w0, w, x, s, c);
    hide Step, CellsOk, LostAt, Due, StatusOf, DInv, Bare;
    var args := w.whens[x].args;
    if s.next == |args| { t := VisitEnded(w0, w, Step(w, c), x, s); }
    else if args[s.next].Promise? { t := VisitedPromise(w0, w, Step(w, c), x, s); }
    else { t := VisitedPlain(w0, w, Step(w, c), x, s); }
  }

  lemma VisitEnded(w0: World, w: World, u: World, x: nat, s: Point) returns (t: Point)
    requires Tracked(w0, w, x, s) && s.fire.None? && s.cb.None? && s.acts == [GVisit(x, s.next)]
    requires s.next == |w.whens[x].args| && u == Visit(w.(stack := [Glue([])] + s.rest), x, s.next)
    ensures Tracked(w0, u, x, t) && Cost(t, |w.whens[x].args|) < Cost(s, |w.whens[x].args|)
    ensures SameCall(w, u, x)
  {
    var r := w.whens[x];
    SameDeferreds(w0, w, u, x, s);
    var fire := if r.remaining == 0 then Some([GFire(r.master, Done, Values(r.values))]) else None;
    t := Point(fire, None, [], s.rest, s.next);
    hide LostAt, Due, StatusOf, DInv, Bare;
    VerdictKept(w0, w, u, r.args, fire, s.next);
    EndStack(w0.stack, w, u, s, t);
    hide Verdict, DuesGrown, Called, Stacked;
    assert CallbackOk(u, None, |w0.cells|);
  }

  lemma EndStack(base: seq<Frame>, w: World, u: World, s: Point, t: Point)
    requires Stacked(base, w, s) && t.rest == s.rest && t.cb.None? && t.acts == []
    requires u.stack == Fired(t.fire) + ([Glue([])] + s.rest)
    ensures Stacked(base, u, t)
  {
    assert [Glue([])] + s.rest == [] + ([Glue([])] + s.rest);
  }

  lemma VisitedPromise(w0: World, w: World, u: World, x: nat, s: Point) returns (t: Point)
    requires Tracked(w0, w, x, s) && s.fire.None? && s.cb.None? && s.acts == [GVisit(x, s.next)]
    requires s.next < |w.whens[x].args| && w.whens[x].args[s.next].Promise?
    requires u == Visit(w.(stack := [Glue([])] + s.rest), x, s.next)
    ensures Tracked(w0, u, x, t) && Cost(t, |w.whens[x].args|) < Cost(s, |w.whens[x].args|)
    ensures SameCall(w, u, x)
  {
    var r := w.whens[x];
    var p, m := r.args[s.next].id, r.master;
    SameDeferreds(w0, w, u, x, s);
    var acts := [AddFor(x, m, p, s.next, Done), AddFor(x, m, p, s.next, Fail), AddFor(x, m, p, s.next, Progress), GVisit(x, s.next + 1)];
    t := Point(None, None, acts, [Glue([])] + s.rest, s.next);
    hide LostAt, Due, StatusOf, DInv, Bare;
    VerdictKept(w0, w, u, r.args, None, s.next);
    Nested(w0.stack, w, s, u, acts, s.next);
    hide Verdict, DuesGrown, Called, Stacked;
  }

  lemma VisitedPlain(w0: World, w: World, u: World, x: nat, s: Point) returns (t: Point)
    requires Tracked(w0, w, x, s) && s.fire.None? && s.cb.None? && s.acts == [GVisit(x, s.next)]
    requires s.next < |w.whens[x].args| && w.whens[x].args[s.next].Plain?
    requires u == Visit(w.(stack := [Glue([])] + s.rest), x, s.next)
    ensures Tracked(w0, u, x, t) && Cost(t, |w.whens[x].args|) < Cost(s, |w.whens[x].args|)
    ensures SameCall(w, u, x)
  {
    var args := w.whens[x].args;
    SameDeferreds(w0, w, u, x, s);
    var acts := [GVisit(x, s.next + 1)];
    t := Point(None, None, acts, [Glue([])] + s.rest, s.next + 1);
    VerdictKept(w0, w, u, args, None, s.next);
    assert !LostAt(w0, args, s.next);
    hide Due, StatusOf, DInv, Bare, DueGrown, LostAt;
    Nested(w0.stack, w, s, u, acts, s.next + 1);
    hide Verdict, DuesGrown, Called, Stacked, Visit;
    VerdictPasses(w0, u, args, None, s.next);
    PlainDues(w0, u, args, s.next);
  }

  lemma PlainDues(w0: World, w: World, args: seq<Arg>, next: nat)
    requires DuesGrown(w0, w, args, next) && next < |args| && args[next].Plain?
    ensures DuesGrown(w0, w, args, next + 1)
  {
    hide Due, StatusOf, Registered;
    forall p: nat ensures Registered(args, p, next + 1) <==> Registered(args, p, next) { RegisteredNext(args, next, p); }
  }

  // ----- a listener is registered -----

  /** The loop is about to register the listener for list k of promise p, at position i. */
  ghost predicate Adding(w: World, x: nat, s: Point, p: nat, i: nat, k: Kind) {
    && s.fire.None? && s.cb.None? && s.acts != [] && x < |w.whens|
    && s.acts[0] == AddFor(x, w.whens[x].master, p, i, k)
    && i < |w.whens[x].args| && w.whens[x].args[i] == Promise(p) && (k == Fail ==> i == s.next)
    && p < w.whens[x].master && p < |w.cells|
  }

  /** The outcome of that registration on the Deferred. */
  function Added(w: World, x: nat, p: nat, i: nat, k: Kind): (Dfd, Option<Observer>)
    requires CellsOk(w) && p < |w.cells| && x < |w.whens|
  {
    AddD(w.cells[p].d, k, ObsFor(x, w.whens[x].master, i, k))
  }

  lemma AddWorld(w0: World, w: World, x: nat, s: Point, c: Choice, p: nat, i: nat, k: Kind) returns (fire: Option<seq<Act>>)
    requires CellsOk(w) && Called(w0, w, x) && Stacked(w0.stack, w, s) && Adding(w, x, s, p, i, k) && DInv(w.cells[p].d)
    ensures var u := Step(w, c); var r := Added(w, x, p, i, k); var m := |w0.cells|;
      && u.cells == w.cells[p := w.cells[p].(d := r.0)] && SameCall(w, u, x)
      && u.stack == Fired(fire) + (Suspension(if r.1.Some? then Some(Callback(p, k)) else None) + ([Glue(s.acts[1..])] + s.rest))
      && FireOk(fire, m) && FireCost(fire) <= 2 && (r.1.None? ==> fire.None?)
      && (k != Fail ==> !Fails(fire)) && (k == Fail && r.1.Some? ==> fire == Some([GFire(m, Fail, Argument(r.0, Fail))]))
  {
    var m := |w0.cells|;
    var r := Added(w, x, p, i, k);
    AddStarts(w.cells[p].d, k, ObsFor(x, m, i, k));
    AddStep(w, s, c, p, k, ObsFor(x, m, i, k));
    hide DInv, StatusOf, Due, ListsWf, Bare, AddD, Step, CellsOk, Argument;
    var w1 := w.(stack := [Glue(s.acts[1..])] + s.rest, cells := w.cells[p := w.cells[p].(d := r.0)]);
    if r.1.None? {
      fire := None;
      assert w1.stack == [] + ([] + w1.stack);
    } else {
      fire := EnterLoop(Push(w1, InCallback(p, k)), x, m, i, k, Argument(r.0, k));
    }
  }

  lemma AddStep(w: World, s: Point, c: Choice, p: nat, k: Kind, o: Observer)
    requires CellsOk(w) && p < |w.cells| && s.acts != [] && s.acts[0] == GAdd(p, k, o) && s.fire.None? && s.cb.None?
    requires w.stack == Fired(s.fire) + (Suspension(s.cb) + ([Glue(s.acts)] + s.rest))
    ensures Step(w, c) == Apply(w.(stack := [Glue(s.acts[1..])] + s.rest), p, k, AddD(w.cells[p].d, k, o))
  {
    hide ListsWf, AddD, Apply;
    assert w.stack == [] + ([] + ([Glue(s.acts)] + s.rest));
    assert w.stack[1..] == s.rest && w.stack[0] == Glue(s.acts);
  }

  lemma AddStarts(d: Dfd, k: Kind, o: Observer)
    requires ListsWf(d) && DInv(d)
    ensures AddD(d, k, o).1 == None || AddD(d, k, o).1 == Some(o)
  {
    AddEffect(d, k, o);
  }

  /** What a listener of `when` does when it is called: at most one message to the master. */
  lemma EnterLoop(w: World, x: nat, m: nat, i: nat, k: Kind, v: Val) returns (fire: Option<seq<Act>>)
    requires x < |w.whens| && w.whens[x].master == m
    ensures var u := Enter(w, ObsFor(x, m, i, k), v);
      && u.cells == w.cells && SameCall(w, u, x) && u.stack == Fired(fire) + w.stack
      && FireOk(fire, m) && FireCost(fire) <= 2
      && (k != Fail ==> !Fails(fire)) && (k == Fail ==> fire == Some([GFire(m, Fail, v)]))
  {
    var u := Enter(w, ObsFor(x, m, i, k), v);
    if u.stack == w.stack { fire := None; assert u.stack == [] + w.stack; }
    else { fire := Some(u.stack[0].acts); }
  }

  /** Three kinds of acts at the head of the loop's frame. */
  lemma AddHead(w0: World, w: World, x: nat, s: Point) returns (p: nat, i: nat, k: Kind)
    requires Called(w0, w, x) && ActsAt(w.whens[x], x, s.acts, s.next) && s.fire.None? && s.cb.None?
    requires s.acts != [] && !s.acts[0].GVisit?
    ensures Adding(w, x, s, p, i, k)
    ensures ActsAt(w.whens[x], x, s.acts[1..], if k == Fail then s.next + 1 else s.next)
    ensures ActsCost(s.acts[1..], |w.whens[x].args|) + 5 <= ActsCost(s.acts, |w.whens[x].args|)
  {
    var r := w.whens[x];
    k := s.acts[0].kind;
    i := if k == Progress && |s.acts| == 2 then s.next - 1 else s.next;
    p := r.args[i].id;
    hide Bare, StatusOf;
  }

  /** A promise's fail list is firing in the loop exactly if it was at the call. */
  lemma SameFiring(w0: World, w: World, x: nat, s: Point, p: nat)
    requires Shape(w0) && Shape(w) && Called(w0, w, x) && Stacked(w0.stack, w, s) && s.fire.None? && s.cb.None? && p < |w0.cells|
    ensures Firing(w.cells[p].d, Fail) == Firing(w0.cells[p].d, Fail)
  {
    var f := InCallback(p, Fail);
    SameSuspended(w0.stack, w, s, f);
    hide DInv, Firing, Bare, StatusOf, Stacked;
    assert Firing(w0.cells[p].d, Fail) <==> f in w0.stack;
    assert Firing(w.cells[p].d, Fail) <==> f in w.stack;
  }

  lemma SameSuspended(base: seq<Frame>, w: World, s: Point, f: Frame)
    requires Stacked(base, w, s) && s.fire.None? && s.cb.None? && f.InCallback?
    ensures f in w.stack <==> f in base
  {
    var n := |s.rest| - |base|;
    assert w.stack == [] + ([] + ([Glue(s.acts)] + s.rest));
    assert s.rest == s.rest[..n] + base;
    assert f !in s.rest[..n];
  }

  lemma AddedDue(w0: World, w: World, x: nat, s: Point, p: nat, i: nat, k: Kind)
    requires CellsOk(w) && Tracked(w0, w, x, s) && Adding(w, x, s, p, i, k) && DInv(w.cells[p].d)
    ensures var next1 := if k == Fail then s.next + 1 else s.next; var args := w.whens[x].args;
      StatusAt(w0, p).Waiting? ==>
        DueGrown(Due(w0.cells[p].d, Fail), Due(Added(w, x, p, i, k).0, Fail), |w0.cells|, Registered(args, p, next1))
  {
    var o := ObsFor(x, |w0.cells|, i, k);
    AddEffect(w.cells[p].d, k, o);
    if k == Fail { AddDue(w.cells[p].d, k, o); }
    assert StatusOf(w.cells[p].d).Waiting? <==> w.cells[p].d.state == Pending;
    assert StatusAt(w, p) == StatusAt(w0, p);
    hide DInv, StatusOf, Due, Bare, LostAt, Verdict, Stacked, ActsAt, AddD, Registered, CellsOk;
  }

  lemma AddedVerdict(w0: World, w: World, u: World, x: nat, s: Point, p: nat, i: nat, k: Kind, fire: Option<seq<Act>>)
    requires CellsOk(w) && Tracked(w0, w, x, s) && Adding(w, x, s, p, i, k) && Shape(w0) && Shape(w) && WhenInv(w)
    requires StatusAt(u, |w0.cells|) == StatusAt(w, |w0.cells|) && FireOk(fire, |w0.cells|)
    requires var r := Added(w, x, p, i, k);
      && (r.1.None? ==> fire.None?) && (k != Fail ==> !Fails(fire))
      && (k == Fail && r.1.Some? ==> fire == Some([GFire(|w0.cells|, Fail, Argument(r.0, Fail))]))
    ensures Verdict(w0, u, w.whens[x].args, fire, if k == Fail then s.next + 1 else s.next)
  {
    var args := w.whens[x].args;
    if k != Fail {
      VerdictKept(w0, w, u, args, fire, s.next);
    } else {
      var lost := AddedFails(w0, w, x, s, p, i);
      hide DInv, StatusOf, Due, Bare, LostAt, Stacked, ActsAt, AddD, CellsOk, WhenInv, Shape, Argument, Called, DuesGrown;
      if lost {
        MasterNotDone(w, x, i);
        VerdictLost(w0, w, u, args, fire, s.next);
      } else {
        VerdictKept(w0, w, u, args, fire, s.next);
        VerdictPasses(w0, u, args, fire, s.next);
      }
    }
  }

  /** The fail listener is called at once exactly if its promise was rejected at the call and not firing. */
  lemma AddedFails(w0: World, w: World, x: nat, s: Point, p: nat, i: nat) returns (lost: bool)
    requires CellsOk(w) && Tracked(w0, w, x, s) && Adding(w, x, s, p, i, Fail) && Shape(w0) && Shape(w)
    ensures lost <==> LostAt(w0, w.whens[x].args, i)
    ensures var r := Added(w, x, p, i, Fail);
      && (lost <==> r.1.Some?)
      && (lost ==> Argument(r.0, Fail) == LostValue(w0, w.whens[x].args, i) && Lost(w, w.whens[x].args[i]))
  {
    var D, o := w.cells[p].d, ObsFor(x, |w0.cells|, i, Fail);
    SameFiring(w0, w, x, s, p);
    assert DInv(D);
    AddedCalls(D, o);
    assert StatusAt(w, p) == StatusAt(w0, p);
    hide DInv, StatusOf, Due, Bare, Verdict, Stacked, ActsAt, AddD, CellsOk, Shape, DuesGrown, Argument;
    lost := AddD(D, Fail, o).1.Some?;
  }

  /** A fail observer is called at once exactly if the Deferred is rejected and its fail list is not firing. */
  lemma AddedCalls(d: Dfd, o: Observer)
    requires DInv(d)
    ensures var r := AddD(d, Fail, o);
      && (r.1.Some? <==> StatusOf(d).Settled? && StatusOf(d).kind == Fail && !Firing(d, Fail))
      && (r.1.Some? ==> Argument(r.0, Fail) == StatusOf(d).value)
  {
    AddEffect(d, Fail, o);
    AddDue(d, Fail, o);
    assert StatusOf(d).Settled? <==> d.state != Pending;
    assert StatusOf(d).Settled? ==> StatusOf(d).kind == Settler(d);
    hide DInv, StatusOf, Due, AddD, Argument;
  }

  /** With a rejected promise among the arguments the master cannot have been resolved. */
  lemma MasterNotDone(w: World, x: nat, i: nat)
    requires WhenInv(w) && x < |w.whens| && i < |w.whens[x].args| && Lost(w, w.whens[x].args[i])
    ensures StatusAt(w, w.whens[x].master).Settled? ==> StatusAt(w, w.whens[x].master).kind == Fail
  {
    InvRecord(w, x);
    var m := w.whens[x].master;
    assert WCellOk(w, m);
    hide StatusOf, StatusAt, WhenInv;
    if StatusAt(w, m).Settled? && StatusAt(w, m).kind == Done { ResolvedMeans(w, x, i, StatusAt(w, m).value); }
  }

  lemma AddDone(w0: World, w: World, x: nat, s: Point, c: Choice) returns (t: Point)
    requires CellsOk(w) && Shape(w0) && Shape(w) && WhenInv(w) && Tracked(w0, w, x, s)
    requires s.fire.None? && s.cb.None? && s.acts != [] && !s.acts[0].GVisit?
    ensures Tracked(w0, Step(w, c), x, t) && Cost(t, |w.whens[x].args|) < Cost(s, |w.whens[x].args|)
    ensures SameCall(w, Step(w, c), x)
  {
    var p, i, k := AddHead(w0, w, x, s);
    assert DInv(w.cells[p].d);
    var fire := AddWorld(w0, w, x, s, c, p, i, k);
    var u := Step(w, c);
    var r := Added(w, x, p, i, k);
    var next1 := if k == Fail then s.next + 1 else s.next;
    t := Point(fire, if r.1.Some? then Some(Callback(p, k)) else None, s.acts[1..], s.rest, next1);
    AddedKeeps(w0, w, u, x, s, p, i, k);
    AddedVerdict(w0, w, u, x, s, p, i, k, fire);
    hide DInv, StatusOf, Due, Bare, LostAt, AddD, CellsOk, WhenInv, Shape, Argument, Called, DuesGrown, Verdict, Step, Added, ActsCost;
    Assembled(w0, w, u, x, s, t);
  }

  lemma Assembled(w0: World, w: World, u: World, x: nat, s: Point, t: Point)
    requires Called(w0, w, x) && Stacked(w0.stack, w, s) && SameCall(w, u, x) && s.fire.None? && s.cb.None? && t.rest == s.rest
    requires u.stack == Fired(t.fire) + (Suspension(t.cb) + ([Glue(t.acts)] + t.rest))
    requires FireOk(t.fire, |w0.cells|) && CallbackOk(u, t.cb, |w0.cells|) && FireCost(t.fire) <= 2
    requires ActsAt(w.whens[x], x, t.acts, t.next)
    requires ActsCost(t.acts, |w.whens[x].args|) + 5 <= ActsCost(s.acts, |w.whens[x].args|)
    requires Called(w0, u, x) && Verdict(w0, u, u.whens[x].args, t.fire, t.next) && DuesGrown(w0, u, u.whens[x].args, t.next)
    ensures Tracked(w0, u, x, t) && Cost(t, |w.whens[x].args|) < Cost(s, |w.whens[x].args|)
  {
    assert x < |w.whens| && x < |u.whens|;
    hide Called, Verdict, DuesGrown, CallbackOk, FireOk, ActsCost, Fired, Suspension;
  }

  lemma AddedKeeps(w0: World, w: World, u: World, x: nat, s: Point, p: nat, i: nat, k: Kind)
    requires CellsOk(w) && Tracked(w0, w, x, s) && Adding(w, x, s, p, i, k) && DInv(w.cells[p].d)
    requires u.cells == w.cells[p := w.cells[p].(d := Added(w, x, p, i, k).0)] && SameCall(w, u, x)
    ensures Called(w0, u, x) && DuesGrown(w0, u, u.whens[x].args, if k == Fail then s.next + 1 else s.next)
    ensures StatusAt(u, |w0.cells|) == StatusAt(w, |w0.cells|)
    ensures Added(w, x, p, i, k).1.Some? ==> CallbackOk(u, Some(Callback(p, k)), |w0.cells|)
  {
    var o := ObsFor(x, |w0.cells|, i, k);
    var next1 := if k == Fail then s.next + 1 else s.next;
    AddedDue(w0, w, x, s, p, i, k);
    AddedEffect(w.cells[p].d, k, o);
    hide DInv, StatusOf, Due, Bare, LostAt, Verdict, Stacked, ActsAt, AddD, CellsOk, Registered, DueGrown, DuesGrown, Firing, FinishedD;
    forall q: nat | q != p && Registered(w.whens[x].args, q, next1) ensures Registered(w.whens[x].args, q, s.next) {
      if k == Fail { RegisteredNext(w.whens[x].args, s.next, q); }
    }
    CellDeferreds(w0, w, u, x, s, p, AddD(w.cells[p].d, k, o).0, next1);
  }

  lemma AddedEffect(d: Dfd, k: Kind, o: Observer)
    requires DInv(d)
    ensures DInv(AddD(d, k, o).0) && StatusOf(AddD(d, k, o).0) == StatusOf(d)
    ensures AddD(d, k, o).1.Some? ==> Firing(AddD(d, k, o).0, k) && FinishedD(AddD(d, k, o).0, k).1 == None
  {
    AddEffect(d, k, o);
    if AddD(d, k, o).1.Some? { AddedIsLast(d, k, o); }
  }
}
