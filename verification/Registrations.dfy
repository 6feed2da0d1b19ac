/** Every registration that `then` and `when` are to make is made, and made once. */
module Registrations {
  import opened Prelude
  import opened Observers
  import opened Deferred
  import opened DeferredRuns
  import opened DeferredEffects
  import opened Promises
  import opened PromiseShape
  import opened Then
  import opened Countdown
  import opened CountdownSteps
  import opened WhenOutcome
  import opened WhenOrder

  /** How often o was registered on side k of d. */
  function Registered(w: World, d: nat, k: Kind, o: Observer): nat {
    if d < |w.cells| then multiset(Get(w.cells[d].d, k).added)[o] else 0
  }

  // ----- what is expected -----

  /** How many handlers of t answered with the promise d. */
  function Given(calls: seq<HandlerCall>, t: nat, d: nat): nat {
    if calls == [] then 0
    else
      var c := calls[|calls| - 1];
      Given(calls[..|calls| - 1], t, d) + One(c.h.target == t && c.ret == Promise(d))
  }

  /** How many of the arguments from position i on are the promise d. */
  function Mentions(args: seq<Arg>, i: nat, d: nat): nat
    decreases |args| - i
  {
    if i >= |args| then 0 else One(args[i] == Promise(d)) + Mentions(args, i + 1, d)
  }

  /** Position j of call x is the promise d. */
  predicate Waits(w: World, x: nat, j: nat, d: nat) {
    x < |w.whens| && j < |w.whens[x].args| && w.whens[x].args[j] == Promise(d)
  }

  /**
   Once: the handler of t, or what passes an outcome through, on the source of t; what
   counts down or reports position j, on its promise; and what passes a rejection on
   to a master, for each mention of the promise. A promise that a handler returned is
   listened to once for each such answer.
   */
  ghost function Expected(w: World, d: nat, k: Kind, o: Observer): nat {
    match o
    case User(_) => 0
    case Handle(t, k1, fn) => One(k1 == k && IsThen(w, t) && Src(w, t) == d && FnAt(w, t, k) == Some(fn))
    case Forward(t, k1) =>
      if k1 != k then 0
      else if IsThen(w, t) then One(Src(w, t) == d && FnAt(w, t, k).None?) + Given(w.calls, t, d)
      else if IsWhen(w, t) && k == Fail && w.cells[t].origin.w < |w.whens| then Mentions(w.whens[w.cells[t].origin.w].args, 0, d)
      else 0
    case Collect(x, j) => One(k == Done && Waits(w, x, j, d))
    case CollectProgress(x, j) => One(k == Progress && Waits(w, x, j, d))
  }

  // ----- what library code has still to do -----

  /** What the loop of call x registers at position j. */
  function AtPosition(w: World, x: nat, j: nat, d: nat, k: Kind, o: Observer): bool
    requires x < |w.whens|
  {
    && Waits(w, x, j, d)
    && match k
       case Done => o == Collect(x, j)
       case Fail => o == Forward(w.whens[x].master, Fail)
       case Progress => o == CollectProgress(x, j)
  }

  function FromPosition(w: World, x: nat, i: nat, d: nat, k: Kind, o: Observer): nat
    requires x < |w.whens|
    decreases |w.whens[x].args| - i
  {
    if i >= |w.whens[x].args| then 0 else One(AtPosition(w, x, i, d, k, o)) + FromPosition(w, x, i + 1, d, k, o)
  }

  function ActOwes(w: World, a: Act, d: nat, k: Kind, o: Observer): nat {
    match a
    case GAdd(d1, k1, o1) => One(d1 == d && k1 == k && o1 == o)
    case GVisit(x, i) => if x < |w.whens| then FromPosition(w, x, i, d, k, o) else 0
    case GFire(_, _, _) => 0
  }

  function ActsOwe(w: World, acts: seq<Act>, d: nat, k: Kind, o: Observer): nat {
    if acts == [] then 0 else ActOwes(w, acts[0], d, k, o) + ActsOwe(w, acts[1..], d, k, o)
  }

  function Owed(w: World, stack: seq<Frame>, d: nat, k: Kind, o: Observer): nat {
    if stack == [] then 0
    else (if stack[0].Glue? then ActsOwe(w, stack[0].acts, d, k, o) else 0) + Owed(w, stack[1..], d, k, o)
  }

  /** Done and still to do make what is expected. */
  ghost predicate Ledger(w: World, d: nat, k: Kind, o: Observer) {
    o.User? || Registered(w, d, k, o) + Owed(w, w.stack, d, k, o) == Expected(w, d, k, o)
  }

  // ----- one Deferred -----

  /** o, if given, was added to side k, and nothing else anywhere. */
  ghost predicate AddsOnly(d: Dfd, k: Kind, r: Dfd, o: Option<Observer>) {
    forall q :: Get(r, q).added == Get(d, q).added + if q == k && o.Some? then [o.value] else []
  }

  lemma {:induction false} FireAdds(d: Dfd, k: Kind, v: Val)
    requires DInv(d)
    ensures AddsOnly(d, k, FireD(d, k, v).0, None)
  {
    assert forall q :: Get(d, q).added + [] == Get(d, q).added;
    if d.state != Pending { FireSettled(d, k, v); }
    else if k == Progress { FireProgress(d, v); }
    else { SettleEffect(d, k, v); }
  }

  lemma {:induction false} AddAdds(d: Dfd, k: Kind, o: Observer)
    requires DInv(d)
    ensures AddsOnly(d, k, AddD(d, k, o).0, Some(o))
  {
    assert forall q :: Get(d, q).added + [] == Get(d, q).added;
    if k == Progress { AddProgress(d, o); }
    else if d.state == Pending { AddWaiting(d, k, o); }
    else if k == Settler(d) { AddSettled(d, k, o); }
    else { AddShut(d, k, o); }
  }

  lemma {:induction false} FinishedAdds(d: Dfd, k: Kind)
    requires DInv(d) && Firing(d, k)
    ensures AddsOnly(d, k, FinishedD(d, k).0, None)
  {
    assert forall q :: Get(d, q).added + [] == Get(d, q).added;
    if k == Progress { FinishedProgress(d); } else { FinishedSettled(d, k); }
  }

  // ----- growth -----

  lemma {:induction false} SamePositions(w: World, u: World, x: nat, i: nat, d: nat, k: Kind, o: Observer)
    requires Grows(w, u) && x < |w.whens|
    ensures x < |u.whens| && FromPosition(u, x, i, d, k, o) == FromPosition(w, x, i, d, k, o)
    decreases |w.whens[x].args| - i
  {
    if i < |w.whens[x].args| { SamePositions(w, u, x, i + 1, d, k, o); }
  }

  lemma VisitInside(w: World, a: Act)
    requires WActOk(w, a) && a.GVisit?
    ensures a.w < |w.whens|
  {
  }

  lemma {:induction false} SameActs(w: World, u: World, acts: seq<Act>, d: nat, k: Kind, o: Observer)
    requires Grows(w, u) && forall a :: a in acts ==> WActOk(w, a)
    ensures ActsOwe(u, acts, d, k, o) == ActsOwe(w, acts, d, k, o)
  {
    hide Grows, WActOk;
    if acts != [] {
      var a := acts[0];
      assert WActOk(w, a);
      SameActs(w, u, acts[1..], d, k, o);
      if a.GVisit? {
        VisitInside(w, a);
        SamePositions(w, u, a.w, a.i, d, k, o);
      }
    }
  }

  lemma {:induction false} SameOwed(w: World, u: World, stack: seq<Frame>, d: nat, k: Kind, o: Observer)
    requires Grows(w, u) && forall f :: f in stack ==> WFrameOk(w, f)
    ensures Owed(u, stack, d, k, o) == Owed(w, stack, d, k, o)
  {
    hide Grows;
    if stack != [] {
      assert WFrameOk(w, stack[0]);
      SameOwed(w, u, stack[1..], d, k, o);
      if stack[0].Glue? { hide WActOk; SameActs(w, u, stack[0].acts, d, k, o); }
    }
  }

  /** Frames of w owe the same later on. */
  lemma {:induction false} SameOwedIn(w: World, u: World, stack: seq<Frame>, d: nat, k: Kind, o: Observer)
    requires Grows(w, u) && WhenInv(w) && forall f :: f in stack ==> f in w.stack
    ensures Owed(u, stack, d, k, o) == Owed(w, stack, d, k, o)
  {
    SameOwed(w, u, stack, d, k, o);
  }

  lemma SameRegistered(w: World, u: World, d: nat, k: Kind, o: Observer)
    requires u.cells == w.cells
    ensures Registered(u, d, k, o) == Registered(w, d, k, o)
  {
  }

  /** A frame of client code or of a suspended list owes nothing. */
  lemma OwedBelow(y: World, w: World, stack: seq<Frame>, d: nat, k: Kind, o: Observer)
    requires w.stack == stack || (w.stack != [] && !w.stack[0].Glue? && w.stack[1..] == stack)
    ensures Owed(y, stack, d, k, o) == Owed(y, w.stack, d, k, o)
  {
  }

  /** Nothing that is expected depends on the state of the Deferreds. */
  lemma SameExpected(w: World, u: World, d: nat, k: Kind, o: Observer)
    requires Grows(w, u) && |u.cells| == |w.cells| && |u.whens| == |w.whens| && u.calls == w.calls
    ensures Expected(u, d, k, o) == Expected(w, d, k, o)
  {
  }

  // ----- library acts -----

  /** The frames that entering an observer pushes register nobody. */
  lemma EnterOwes(y: World, w: World, o: Observer, v: Val, d: nat, k: Kind, x: Observer)
    ensures Owed(y, Enter(w, o, v).stack, d, k, x) == Owed(y, w.stack, d, k, x)
  {
    var u := Enter(w, o, v);
    if u.stack != w.stack {
      assert u.stack == [u.stack[0]] + w.stack && u.stack[1..] == w.stack;
      if u.stack[0].Glue? {
        assert u.stack[0].acts[1..] == [] && ActOwes(y, u.stack[0].acts[0], d, k, x) == 0;
        assert ActsOwe(y, u.stack[0].acts, d, k, x) == ActsOwe(y, [], d, k, x);
      }
    }
  }

  lemma RegisteredAfter(w: World, u: World, d: nat, k: Kind, r: Dfd, o: Option<Observer>, d1: nat, k1: Kind, o1: Observer)
    requires d < |w.cells| && AddsOnly(w.cells[d].d, k, r, o) && u.cells == w.cells[d := w.cells[d].(d := r)]
    ensures Registered(u, d1, k1, o1) == Registered(w, d1, k1, o1) + One(o == Some(o1) && d1 == d && k1 == k)
  {
  }

  lemma {:induction false} ApplyLedger(w: World, d: nat, k: Kind, r: (Dfd, Option<Observer>), o: Option<Observer>, d1: nat, k1: Kind, o1: Observer)
    requires d < |w.cells| && AddsOnly(w.cells[d].d, k, r.0, o) && WhenInv(w) && Grows(w, Apply(w, d, k, r))
    ensures var u := Apply(w, d, k, r);
      && Registered(u, d1, k1, o1) == Registered(w, d1, k1, o1) + One(o == Some(o1) && d1 == d && k1 == k)
      && Owed(u, u.stack, d1, k1, o1) == Owed(w, w.stack, d1, k1, o1)
      && Expected(u, d1, k1, o1) == Expected(w, d1, k1, o1)
  {
    var u := Apply(w, d, k, r);
    var w1 := w.(cells := w.cells[d := w.cells[d].(d := r.0)]);
    assert u.cells == w1.cells && |u.whens| == |w.whens| && u.calls == w.calls;
    hide Grows, DInv, AddsOnly;
    RegisteredAfter(w, u, d, k, r.0, o, d1, k1, o1);
    SameExpected(w, u, d1, k1, o1);
    SameOwed(w, u, w.stack, d1, k1, o1);
    if r.1.Some? {
      var w2 := Push(w1, InCallback(d, k));
      assert w2.stack[1..] == w.stack;
      EnterOwes(u, w2, r.1.value, Argument(r.0, k), d1, k1, o1);
    }
  }

  ghost predicate Books(w: World) {
    && (forall d: nat, k, o :: Ledger(w, d, k, o))
    && (forall c :: c in w.calls ==> IsThen(w, c.h.target))
  }

  lemma StillThen(w: World, u: World)
    requires Grows(w, u)
    ensures forall t: nat :: IsThen(w, t) ==> IsThen(u, t)
  {
  }

  /** An operation without a registration, or the one that act a was to make. */
  lemma {:induction false} ApplyBooks(w: World, d: nat, k: Kind, r: (Dfd, Option<Observer>), o: Option<Observer>)
    requires d < |w.cells| && AddsOnly(w.cells[d].d, k, r.0, o) && WhenInv(w) && Grows(w, Apply(w, d, k, r))
    requires forall c :: c in w.calls ==> IsThen(w, c.h.target)
    requires forall d1: nat, k1, o1: Observer :: !o1.User? ==>
      Registered(w, d1, k1, o1) + Owed(w, w.stack, d1, k1, o1) + One(o == Some(o1) && d1 == d && k1 == k) == Expected(w, d1, k1, o1)
    ensures Books(Apply(w, d, k, r))
  {
    var u := Apply(w, d, k, r);
    assert u.calls == w.calls;
    hide Grows, WhenInv, AddsOnly, Registered, Owed, Expected;
    forall d1: nat, k1, o1: Observer ensures Ledger(u, d1, k1, o1) {
      if !o1.User? { ApplyLedger(w, d, k, r, o, d1, k1, o1); }
    }
    StillThen(w, u);
  }

  lemma {:induction false} ActBooks(w: World, a: Act)
    requires Shape(w) && CellsOk(w) && WhenInv(w) && WActOk(w, a)
    requires forall c :: c in w.calls ==> IsThen(w, c.h.target)
    requires forall d: nat, k, o: Observer :: !o.User? ==>
      Registered(w, d, k, o) + Owed(w, w.stack, d, k, o) + ActOwes(w, a, d, k, o) == Expected(w, d, k, o)
    ensures Books(DoAct(w, a))
  {
    ActShape(w, a);
    match a
    case GFire(t, k, v) =>
      assert DInv(w.cells[t].d);
      FireAdds(w.cells[t].d, k, v);
      hide Shape, CellsOk, WhenInv, WActOk, DInv, Registered, Owed, Expected, AddsOnly, FireD, Grows, Apply, Books;
      assert forall d: nat, k, o :: ActOwes(w, a, d, k, o) == 0;
      ApplyBooks(w, t, k, FireD(w.cells[t].d, k, v), None);
    case GAdd(t, k, o) =>
      assert DInv(w.cells[t].d);
      AddAdds(w.cells[t].d, k, o);
      hide Shape, CellsOk, WhenInv, WActOk, DInv, Registered, Owed, Expected, AddsOnly, AddD, Grows, Apply, Books;
      ApplyBooks(w, t, k, AddD(w.cells[t].d, k, o), Some(o));
    case GVisit(x, i) =>
      VisitBooks(w, x, i);
  }

  lemma {:induction false} VisitBooks(w: World, x: nat, i: nat)
    requires WhenInv(w) && x < |w.whens| && Grows(w, Visit(w, x, i))
    requires forall c :: c in w.calls ==> IsThen(w, c.h.target)
    requires forall d: nat, k, o: Observer :: !o.User? ==>
      Registered(w, d, k, o) + Owed(w, w.stack, d, k, o) + FromPosition(w, x, i, d, k, o) == Expected(w, d, k, o)
    ensures Books(Visit(w, x, i))
  {
    var u := Visit(w, x, i);
    assert u.cells == w.cells && u.calls == w.calls && |u.whens| == |w.whens|;
    hide Visit, WhenInv, Grows, FromPosition, Owed, Expected, Registered;
    forall d: nat, k, o: Observer ensures Ledger(u, d, k, o) {
      if !o.User? {
        SameExpected(w, u, d, k, o);
        SameOwedIn(w, u, w.stack, d, k, o);
        VisitOwes(w, x, i, d, k, o);
        SameRegistered(w, u, d, k, o);
      }
    }
  }

  /** What the loop was to register from position i on, its next round and its rest are to register. */
  lemma {:induction false} VisitOwes(w: World, x: nat, i: nat, d: nat, k: Kind, o: Observer)
    requires x < |w.whens| && Grows(w, Visit(w, x, i))
    ensures var u := Visit(w, x, i);
      Owed(u, u.stack, d, k, o) == Owed(u, w.stack, d, k, o) + FromPosition(w, x, i, d, k, o)
  {
    var u := Visit(w, x, i);
    var c := w.whens[x];
    SamePositions(w, u, x, i, d, k, o);
    assert x < |u.whens| && u.whens[x].args == c.args && u.whens[x].master == c.master;
    hide Grows;
    if u.stack != w.stack {
      var acts := u.stack[0].acts;
      assert u.stack == [Glue(acts)] + w.stack;
      hide Owed, ActsOwe, ActOwes, FromPosition;
      PushedOwes(u, w.stack, acts, d, k, o);
      if i < |c.args| && c.args[i].Promise? { RoundOwes(u, x, i, acts, d, k, o); } else { SkipOwes(u, x, i, acts, d, k, o); }
    }
  }

  /** A plain value, or the end of the loop. */
  lemma {:induction false} SkipOwes(u: World, x: nat, i: nat, acts: seq<Act>, d: nat, k: Kind, o: Observer)
    requires x < |u.whens| && (i < |u.whens[x].args| ==> u.whens[x].args[i].Plain?)
    requires |acts| == 1 && if i < |u.whens[x].args| then acts[0] == GVisit(x, i + 1) else acts[0].GFire?
    ensures ActsOwe(u, acts, d, k, o) == FromPosition(u, x, i, d, k, o)
  {
    assert acts[1..] == [];
    assert ActsOwe(u, acts, d, k, o) == ActOwes(u, acts[0], d, k, o) + ActsOwe(u, [], d, k, o);
  }

  lemma PushedOwes(u: World, stack: seq<Frame>, acts: seq<Act>, d: nat, k: Kind, o: Observer)
    requires u.stack == [Glue(acts)] + stack
    ensures Owed(u, u.stack, d, k, o) == ActsOwe(u, acts, d, k, o) + Owed(u, stack, d, k, o)
  {
    assert u.stack[1..] == stack;
  }

  lemma {:induction false} RoundOwes(u: World, x: nat, i: nat, acts: seq<Act>, d: nat, k: Kind, o: Observer)
    requires x < |u.whens| && i < |u.whens[x].args| && u.whens[x].args[i].Promise?
    requires var p, m := u.whens[x].args[i].id, u.whens[x].master;
      acts == [GAdd(p, Done, Collect(x, i)), GAdd(p, Fail, Forward(m, Fail)), GAdd(p, Progress, CollectProgress(x, i)), GVisit(x, i + 1)]
    ensures ActsOwe(u, acts, d, k, o) == FromPosition(u, x, i, d, k, o)
  {
    FourActs(u, acts, d, k, o);
    hide ActsOwe;
  }

  lemma {:induction false} FourActs(w: World, acts: seq<Act>, d: nat, k: Kind, o: Observer)
    requires |acts| == 4
    ensures ActsOwe(w, acts, d, k, o) == ActOwes(w, acts[0], d, k, o) + ActOwes(w, acts[1], d, k, o) + ActOwes(w, acts[2], d, k, o) + ActOwes(w, acts[3], d, k, o)
  {
    ThreeActs(w, acts[1..], d, k, o);
  }

  lemma {:induction false} ThreeActs(w: World, acts: seq<Act>, d: nat, k: Kind, o: Observer)
    requires |acts| == 3
    ensures ActsOwe(w, acts, d, k, o) == ActOwes(w, acts[0], d, k, o) + ActOwes(w, acts[1], d, k, o) + ActOwes(w, acts[2], d, k, o)
  {
    var a1, a2 := acts[1..], acts[2..];
    assert a1[1..] == a2 && a2[1..] == [];
    assert ActsOwe(w, a2, d, k, o) == ActOwes(w, a2[0], d, k, o) + ActsOwe(w, [], d, k, o);
  }

  // ----- client code -----

  /** acts are pushed and make up for what is newly expected; nothing is registered yet. */
  lemma {:induction false} PushedBooks(w: World, u: World, acts: seq<Act>, stack: seq<Frame>)
    requires Books(w) && WhenInv(w) && Grows(w, u)
    requires w.cells <= u.cells && forall i :: |w.cells| <= i < |u.cells| ==> u.cells[i].d == NewDfd()
    requires u.stack == [Glue(acts)] + stack
    requires w.stack == stack || (w.stack != [] && !w.stack[0].Glue? && w.stack[1..] == stack)
    requires forall d: nat, k, o: Observer :: !o.User? ==> Expected(u, d, k, o) == Expected(w, d, k, o) + ActsOwe(u, acts, d, k, o)
    requires forall c :: c in u.calls ==> IsThen(u, c.h.target)
    ensures Books(u)
  {
    hide Grows, WhenInv, Expected, ActsOwe, NewDfd, Owed, Registered;
    forall d: nat, k, o: Observer ensures Ledger(u, d, k, o) {
      assert Ledger(w, d, k, o);
      if !o.User? {
        SameOwedIn(w, u, w.stack, d, k, o);
        OwedBelow(u, w, stack, d, k, o);
        PushedOwes(u, stack, acts, d, k, o);
        NewRegistersNobody(w, u, d, k, o);
      }
    }
  }

  lemma NewRegistersNobody(w: World, u: World, d: nat, k: Kind, o: Observer)
    requires w.cells <= u.cells && forall i :: |w.cells| <= i < |u.cells| ==> u.cells[i].d == NewDfd()
    ensures Registered(u, d, k, o) == Registered(w, d, k, o)
  {
    assert Get(NewDfd(), k).added == [];
  }

  lemma {:induction false} NeverGiven(calls: seq<HandlerCall>, t: nat, d: nat)
    requires forall c :: c in calls ==> c.h.target != t
    ensures Given(calls, t, d) == 0
  {
    if calls != [] {
      assert calls[|calls| - 1] in calls;
      NeverGiven(calls[..|calls| - 1], t, d);
    }
  }

  lemma {:induction false} ThenOwes(y: World, src: nat, t: nat, fns: Fns, d: nat, k: Kind, o: Observer)
    ensures ActsOwe(y, ThenAdds(src, t, fns), d, k, o) == One(d == src && o == ThenObserver(t, k, fns))
  {
    ThreeActs(y, ThenAdds(src, t, fns), d, k, o);
  }

  lemma {:induction false} ThenExpected(w: World, u: World, src: nat, fns: Fns, d: nat, k: Kind, o: Observer)
    requires u.cells == w.cells + [Cell(NewDfd(), ThenOf(src, fns))] && u.whens == w.whens && u.calls == w.calls && !o.User?
    requires forall c :: c in w.calls ==> IsThen(w, c.h.target)
    ensures Expected(u, d, k, o) == Expected(w, d, k, o) + One(d == src && o == ThenObserver(|w.cells|, k, fns))
  {
    hide NewDfd, Mentions;
    if o.Forward? { NeverGiven(w.calls, |w.cells|, d); }
  }

  lemma {:induction false} ThenBooks(w: World, src: nat, fns: Fns)
    requires Books(w) && WhenInv(w) && CellsOk(w) && src < |w.cells| && Grows(w, DoAction(w, Then(src, fns)))
    ensures Books(DoAction(w, Then(src, fns)))
  {
    var u := DoAction(w, Then(src, fns));
    var acts := ThenAdds(src, |w.cells|, fns);
    assert forall c :: c in u.calls ==> IsThen(u, c.h.target);
    assert u.cells == w.cells + [Cell(NewDfd(), ThenOf(src, fns))] && u.stack == [Glue(acts)] + w.stack;
    assert u.whens == w.whens && u.calls == w.calls;
    assert forall c :: c in w.calls ==> IsThen(w, c.h.target);
    hide WhenInv, CellsOk, ActsOwe, NewDfd, Books, Expected, Grows, DoAction;
    forall d: nat, k, o: Observer | !o.User? ensures Expected(u, d, k, o) == Expected(w, d, k, o) + ActsOwe(u, acts, d, k, o) {
      ThenOwes(u, src, |w.cells|, fns, d, k, o);
      ThenExpected(w, u, src, fns, d, k, o);
    }
    PushedBooks(w, u, acts, w.stack);
  }

  /** What the whole loop of call x registers. */
  lemma {:induction false} LoopRegisters(w: World, x: nat, i: nat, d: nat, k: Kind, o: Observer)
    requires x < |w.whens|
    ensures FromPosition(w, x, i, d, k, o) ==
      match o
      case Collect(y, j) => One(k == Done && y == x && i <= j && Waits(w, x, j, d))
      case CollectProgress(y, j) => One(k == Progress && y == x && i <= j && Waits(w, x, j, d))
      case Forward(t, k1) => if t == w.whens[x].master && k == Fail && k1 == Fail then Mentions(w.whens[x].args, i, d) else 0
      case _ => 0
    decreases |w.whens[x].args| - i
  {
    if i < |w.whens[x].args| { LoopRegisters(w, x, i + 1, d, k, o); }
  }

  lemma {:induction false} CallExpected(w: World, u: World, c: When, d: nat, k: Kind, o: Observer)
    requires u.cells == w.cells + [Cell(NewDfd(), WhenOf(|w.whens|))] && u.whens == w.whens + [c] && c.master == |w.cells|
    requires u.calls == w.calls && !o.User? && forall t: nat :: IsWhen(w, t) ==> w.cells[t].origin.w < |w.whens|
    ensures Expected(u, d, k, o) == Expected(w, d, k, o) + FromPosition(u, |w.whens|, 0, d, k, o)
  {
    LoopRegisters(u, |w.whens|, 0, d, k, o);
    hide NewDfd, Mentions, Given, FromPosition;
  }

  lemma {:induction false} CallBooks(w: World, args: seq<Arg>)
    requires Books(w) && WhenInv(w) && !(|args| == 1 && args[0].Promise?) && Grows(w, StartWhen(w, args))
    ensures Books(StartWhen(w, args))
  {
    var u := StartWhen(w, args);
    var acts := u.stack[0].acts;
    assert forall c :: c in u.calls ==> IsThen(u, c.h.target) by { hide WhenInv; }
    OldMasters(w);
    CallShape(w, args);
    hide Books, WhenInv, NewDfd, Expected, Grows, StartWhen, ActsOwe;
    forall d: nat, k, o: Observer | !o.User? ensures Expected(u, d, k, o) == Expected(w, d, k, o) + ActsOwe(u, acts, d, k, o) {
      CallOwes(w, args, d, k, o);
      CallExpected(w, u, u.whens[|w.whens|], d, k, o);
    }
    PushedBooks(w, u, acts, w.stack);
  }

  lemma CallShape(w: World, args: seq<Arg>)
    requires !(|args| == 1 && args[0].Promise?)
    ensures var u := StartWhen(w, args);
      && u.cells == w.cells + [Cell(NewDfd(), WhenOf(|w.whens|))] && u.calls == w.calls
      && |u.whens| == |w.whens| + 1 && u.whens == w.whens + [u.whens[|w.whens|]] && u.whens[|w.whens|].master == |w.cells|
      && u.stack != [] && u.stack[0].Glue? && u.stack == [Glue(u.stack[0].acts)] + w.stack
  {
  }

  lemma {:induction false} CallOwes(w: World, args: seq<Arg>, d: nat, k: Kind, o: Observer)
    requires !(|args| == 1 && args[0].Promise?)
    ensures var u := StartWhen(w, args);
      ActsOwe(u, u.stack[0].acts, d, k, o) == FromPosition(u, |w.whens|, 0, d, k, o)
  {
    var u := StartWhen(w, args);
    var acts := u.stack[0].acts;
    assert acts[1..] == [];
    assert ActsOwe(u, acts, d, k, o) == ActOwes(u, acts[0], d, k, o) + ActsOwe(u, [], d, k, o);
    if |args| == 1 { assert FromPosition(u, |w.whens|, 1, d, k, o) == 0; }
  }

  lemma {:induction false} AnswerOwes(y: World, h: Handling, ret: Arg, d: nat, k: Kind, o: Observer)
    ensures ActsOwe(y, AfterHandler(h, ret), d, k, o) == One(ret == Promise(d) && o == Forward(h.target, k))
  {
    var acts := AfterHandler(h, ret);
    if ret.Promise? {
      ThreeActs(y, acts, d, k, o);
    } else {
      assert acts[1..] == [];
      assert ActsOwe(y, acts, d, k, o) == ActOwes(y, acts[0], d, k, o) + ActsOwe(y, [], d, k, o);
    }
  }

  lemma {:induction false} AnswerExpected(w: World, u: World, h: Handling, ret: Arg, d: nat, k: Kind, o: Observer)
    requires u.cells == w.cells && u.whens == w.whens && u.calls == w.calls + [HandlerCall(h, ret)] && IsThen(w, h.target) && !o.User?
    ensures Expected(u, d, k, o) == Expected(w, d, k, o) + ActsOwe(u, AfterHandler(h, ret), d, k, o)
  {
    AnswerOwes(u, h, ret, d, k, o);
    hide ActsOwe, AfterHandler, Mentions;
    assert u.calls[..|w.calls|] == w.calls;
  }

  lemma {:induction false} ReturnBooks(w: World, h: Option<Handling>, ret: Arg)
    requires Books(w) && WhenInv(w) && w.stack != [] && w.stack[0] == UserCode(h) && (h.Some? ==> IsThen(w, h.value.target))
    requires Grows(w, DoReturn(w, h, ret))
    ensures Books(DoReturn(w, h, ret))
  {
    var u := DoReturn(w, h, ret);
    if |w.stack| > 1 && ValidArg(w, ret) {
      if h.None? {
        PoppedBooks(w, u);
      } else {
        var acts := AfterHandler(h.value, ret);
        forall d: nat, k, o: Observer | !o.User? ensures Expected(u, d, k, o) == Expected(w, d, k, o) + ActsOwe(u, acts, d, k, o) {
          hide WhenInv, Books, Expected, ActsOwe, AfterHandler, Grows;
          AnswerExpected(w, u, h.value, ret, d, k, o);
        }
        assert forall c :: c in u.calls ==> IsThen(u, c.h.target) by { hide WhenInv; }
        assert w.cells <= u.cells && u.stack == [Glue(acts)] + w.stack[1..];
        hide Books, WhenInv, Expected, Grows, ActsOwe, AfterHandler, DoReturn;
        PushedBooks(w, u, acts, w.stack[1..]);
      }
    }
  }

  /** A frame that owes nothing went. */
  lemma {:induction false} PoppedBooks(w: World, u: World)
    requires Books(w) && WhenInv(w) && w.stack != [] && (w.stack[0].Glue? ==> w.stack[0].acts == []) && u == w.(stack := w.stack[1..])
    ensures Books(u)
  {
    GrowsSelf(w, u);
    hide WhenInv, Grows;
    forall d: nat, k, o: Observer ensures Ledger(u, d, k, o) {
      assert Ledger(w, d, k, o);
      if !o.User? {
        SameOwedIn(w, u, u.stack, d, k, o);
        SameExpected(w, u, d, k, o);
      }
    }
  }

  lemma {:induction false} ActionBooks(w: World, a: Action)
    requires Shape(w) && CellsOk(w) && WhenInv(w) && Books(w)
    ensures Books(DoAction(w, a))
  {
    ActionShape(w, a);
    var u := DoAction(w, a);
    match a
    case MakeDeferred => MakeBooks(w);
    case Settle(t, k, v) =>
      if t < |w.cells| && w.cells[t].origin == Public {
        assert DInv(w.cells[t].d);
        FireAdds(w.cells[t].d, k, v);
        BooksMean(w);
        hide Shape, CellsOk, WhenInv, DInv, Registered, Owed, Expected, AddsOnly, FireD, Grows, Apply, Books;
        ApplyBooks(w, t, k, FireD(w.cells[t].d, k, v), None);
      }
    case Listen(t, k, n) =>
      if t < |w.cells| {
        assert DInv(w.cells[t].d);
        AddAdds(w.cells[t].d, k, User(n));
        BooksMean(w);
        hide Shape, CellsOk, WhenInv, DInv, Registered, Owed, Expected, AddsOnly, AddD, Grows, Apply, Books;
        ApplyBooks(w, t, k, AddD(w.cells[t].d, k, User(n)), Some(User(n)));
      }
    case Then(d, fns) => if d < |w.cells| { ThenBooks(w, d, fns); }
    case WhenAll(args) =>
      if (forall i :: 0 <= i < |args| ==> ValidArg(w, args[i])) && !(|args| == 1 && args[0].Promise?) {
        CallBooks(w, args);
      }
  }

  lemma BooksMean(w: World)
    requires Books(w)
    ensures forall d: nat, k, o: Observer :: !o.User? ==> Registered(w, d, k, o) + Owed(w, w.stack, d, k, o) == Expected(w, d, k, o)
    ensures forall c :: c in w.calls ==> IsThen(w, c.h.target)
  {
    hide Registered, Owed, Expected;
    forall d: nat, k, o: Observer | !o.User? ensures Registered(w, d, k, o) + Owed(w, w.stack, d, k, o) == Expected(w, d, k, o) { assert Ledger(w, d, k, o); }
  }

  lemma MakeExpected(w: World, u: World, d: nat, k: Kind, o: Observer)
    requires u.cells == w.cells + [Cell(NewDfd(), Public)] && u.whens == w.whens && u.calls == w.calls
    ensures Expected(u, d, k, o) == Expected(w, d, k, o)
  {
    hide NewDfd, Mentions, Given;
  }

  lemma {:induction false} MakeBooks(w: World)
    requires CellsOk(w) && WhenInv(w) && Books(w) && Grows(w, DoAction(w, MakeDeferred))
    ensures Books(DoAction(w, MakeDeferred))
  {
    var u := DoAction(w, MakeDeferred);
    assert w.cells <= u.cells && u.stack == w.stack;
    forall d: nat, k, o: Observer ensures Ledger(u, d, k, o) {
      assert Ledger(w, d, k, o);
      if !o.User? {
        NewRegistersNobody(w, u, d, k, o);
        MakeExpected(w, u, d, k, o);
        hide Registered, Expected, NewDfd, Grows, WhenInv;
        SameOwedIn(w, u, w.stack, d, k, o);
      }
    }
    assert forall c :: c in u.calls ==> IsThen(u, c.h.target);
  }

  lemma {:induction false} StepBooks(w: World, c: Choice)
    requires Shape(w) && CellsOk(w) && ThenInv(w) && WhenInv(w) && Books(w)
    ensures Books(Step(w, c))
  {
    assert FrameOk(w, w.stack[0]);
    StepShape(w, c);
    match w.stack[0]
    case InCallback(t, k) =>
      CallbackBooks(w, t, k);
    case Glue(acts) =>
      if acts == [] { PoppedBooks(w, w.(stack := w.stack[1..])); } else { GlueBooks(w, acts); }
    case UserCode(h) =>
      match c {
        case Act(a) => ActionBooks(w, a);
        case Return(ret) =>
          hide Shape, ThenInv, CellsOk, WhenInv, Books;
          ReturnBooks(w, h, ret);
      }
  }

  lemma {:induction false} CallbackBooks(w: World, t: nat, k: Kind)
    requires Shape(w) && CellsOk(w) && WhenInv(w) && Books(w) && w.stack[0] == InCallback(t, k)
    ensures t < |w.cells| && Books(Apply(w.(stack := w.stack[1..]), t, k, FinishedD(w.cells[t].d, k)))
  {
    var below := w.(stack := w.stack[1..]);
    PopShape(w);
    assert DInv(w.cells[t].d) && Firing(w.cells[t].d, k) by { hide DInv, Firing; assert w.stack[0] in w.stack; }
    FinishedEffect(w.cells[t].d, k);
    FinishedAdds(w.cells[t].d, k);
    ApplyShape(below, t, k, FinishedD(w.cells[t].d, k));
    BelowInv(w);
    PoppedBooks(w, below);
    BooksMean(below);
    hide Shape, CellsOk, WhenInv, DInv, Registered, Owed, Expected, AddsOnly, FinishedD, Grows, Apply, Books;
    ApplyBooks(below, t, k, FinishedD(w.cells[t].d, k), None);
  }

  lemma BelowInv(w: World)
    requires WhenInv(w) && w.stack != []
    ensures WhenInv(w.(stack := w.stack[1..]))
  {
    var u := w.(stack := w.stack[1..]);
    GrowsSelf(w, u);
    SameWhen(w, u);
  }

  lemma {:induction false} GlueBooks(w: World, acts: seq<Act>)
    requires Shape(w) && CellsOk(w) && WhenInv(w) && Books(w) && w.stack[0] == Glue(acts) && acts != []
    ensures CellsOk(Push(w.(stack := w.stack[1..]), Glue(acts[1..])))
    ensures Books(DoAct(Push(w.(stack := w.stack[1..]), Glue(acts[1..])), acts[0]))
  {
    var below := w.(stack := w.stack[1..]);
    var rest := Push(below, Glue(acts[1..]));
    BooksMean(w);
    PopShape(w);
    PushShape(below, rest, -1, Done);
    GrowsSelf(w, rest);
    assert WFrameOk(w, w.stack[0]);
    assert WhenInv(rest) by { RestInv(w, rest, acts); }
    assert WActOk(rest, acts[0]) by { WActGrows(w, rest, acts[0]); }
    forall d: nat, k, o: Observer | !o.User?
      ensures Registered(rest, d, k, o) + Owed(rest, rest.stack, d, k, o) + ActOwes(rest, acts[0], d, k, o) == Expected(rest, d, k, o)
    {
      assert Ledger(w, d, k, o);
      hide Shape, CellsOk, Grows;
      SameOwed(w, rest, w.stack, d, k, o);
      hide WhenInv, Books, WActOk, ActOwes;
      SameExpected(w, rest, d, k, o) by { GrowsSelf(w, rest); }
      assert rest.stack[1..] == below.stack;
    }
    hide Shape, CellsOk, WhenInv, Books, WActOk, ActOwes, Registered, Owed, Expected, Grows, DoAct;
    ActBooks(rest, acts[0]);
  }

  lemma RestInv(w: World, rest: World, acts: seq<Act>)
    requires WhenInv(w) && w.stack != [] && w.stack[0] == Glue(acts) && acts != []
    requires rest == Push(w.(stack := w.stack[1..]), Glue(acts[1..]))
    ensures WhenInv(rest)
  {
    GrowsSelf(w, rest);
    assert WFrameOk(w, w.stack[0]);
    assert WFrameOk(rest, Glue(acts[1..])) by {
      hide Grows, WActOk;
      forall a | a in acts[1..] ensures WActOk(rest, a) { WActGrows(w, rest, a); }
    }
    hide WFrameOk, Grows;
    SameWhen(w, rest);
  }

  // ----- whole runs -----

  lemma StartBooks()
    ensures Books(START)
  {
    forall d: nat, k, o: Observer ensures Ledger(START, d, k, o) {
      assert START.stack[1..] == [];
      assert Owed(START, START.stack, d, k, o) == Owed(START, [], d, k, o);
    }
  }

  lemma {:induction false} RunBooks(w: World, choices: seq<Choice>)
    requires AllGood(w) && Books(w)
    ensures AllGood(Run(w, choices)) && Books(Run(w, choices))
    decreases |choices|
  {
    if choices != [] {
      StepBooks(w, choices[0]);
      StepAllGood(w, choices[0]);
      hide AllGood, Books, Step;
      RunBooks(Step(w, choices[0]), choices[1..]);
    }
  }

  /**
   In every run: each registration that `then` and `when` are to make on some promise
   has been made or is still on the stack, never both and never twice; at rest all
   have been made.
   */
  lemma RegistrationsAreExact(choices: seq<Choice>, d: nat, k: Kind, o: Observer)
    requires !o.User?
    ensures var w := Run(START, choices);
      && Registered(w, d, k, o) <= Expected(w, d, k, o)
      && Registered(w, d, k, o) + Owed(w, w.stack, d, k, o) == Expected(w, d, k, o)
      && (Quiescent(w) ==> Registered(w, d, k, o) == Expected(w, d, k, o))
  {
    StartAllGood();
    StartBooks();
    RunBooks(START, choices);
    var w := Run(START, choices);
    assert Ledger(w, d, k, o);
    if Quiescent(w) { assert w.stack[1..] == []; }
  }

  /** How often o was run. */
  function Runs(calls: seq<Call>, o: Observer): nat {
    if calls == [] then 0 else Runs(calls[..|calls| - 1], o) + One(calls[|calls| - 1].obs == o)
  }

  lemma {:induction false} RunsAreRegistrations(calls: seq<Call>, added: seq<Observer>, o: Observer)
    requires |calls| == |added| && forall i :: 0 <= i < |calls| ==> calls[i].obs == added[i]
    ensures Runs(calls, o) == multiset(added)[o]
  {
    if calls != [] {
      var n := |calls| - 1;
      assert added == added[..n] + [added[n]];
      RunsAreRegistrations(calls[..n], added[..n], o);
    }
  }

  /** On a settled side nobody is left out and nobody is run with anything else; on the other side nobody is run at all. */
  lemma {:induction false} SettledRuns(d: Dfd, k: Kind, o: Observer)
    requires DInv(d) && d.state != Pending && k != Progress && !Firing(d, k)
    ensures Runs(Get(d, k).calls, o) == if k == Settler(d) then multiset(Get(d, k).added)[o] else 0
    ensures forall c :: c in Get(d, k).calls ==> c.arg == StatusOf(d).value
  {
    if k == Settler(d) { RunsAreRegistrations(Get(d, k).calls, Get(d, k).added, o); }
  }

  /**
   At rest, if the source of the derived promise t has settled, each of its done and
   fail handlers has been run exactly once, with the value of the source, if it is the
   handler for that outcome, and not at all otherwise.
   */
  lemma HandlersRunOnce(choices: seq<Choice>, t: nat, k: Kind)
    requires k != Progress && Quiescent(Run(START, choices)) && IsThen(Run(START, choices), t)
    requires var w := Run(START, choices); StatusAt(w, Src(w, t)).Settled? && FnAt(w, t, k).Some?
    ensures var w := Run(START, choices);
      var d := w.cells[Src(w, t)].d;
      && Runs(Get(d, k).calls, Handle(t, k, FnAt(w, t, k).value)) == One(StatusAt(w, Src(w, t)).kind == k)
      && forall c :: c in Get(d, k).calls ==> c.arg == StatusAt(w, Src(w, t)).value
  {
    StartAllGood();
    RunAllGood(START, choices);
    var w := Run(START, choices);
    var s, o := Src(w, t), Handle(t, k, FnAt(w, t, k).value);
    RegistrationsAreExact(choices, s, k, o);
    QuiescentIdle(w, s, k);
    SettledRuns(w.cells[s].d, k, o);
  }
}
