/** `then`: what settles a derived promise, for every run of the most general client. */
module Then {
  import opened Prelude
  import opened Observers
  import opened Deferred
  import opened DeferredRuns
  import opened DeferredEffects
  import opened Promises
  import opened PromiseShape

  ghost predicate IsThen(w: World, t: nat) {
    t < |w.cells| && w.cells[t].origin.ThenOf?
  }

  ghost function Src(w: World, t: nat): nat
    requires IsThen(w, t)
  {
    w.cells[t].origin.src
  }

  ghost function FnAt(w: World, t: nat, k: Kind): Option<nat>
    requires IsThen(w, t)
  {
    FnFor(w.cells[t].origin.fns, k)
  }

  /** The handler of t ran on the outcome of its source and answered ret. */
  ghost predicate Answered(w: World, t: nat, k: Kind, v: Val, ret: Arg) {
    && IsThen(w, t) && k != Progress
    && FnAt(w, t, k).Some?
    && StatusAt(w, Src(w, t)) == Settled(k, v)
    && HandlerCall(Handling(t, k, FnAt(w, t, k).value, v), ret) in w.calls
  }

  /** p is the promise that the done or fail handler of t returned. */
  ghost predicate Adopts(w: World, t: nat, p: nat) {
    exists k, v :: Answered(w, t, k, v, Promise(p))
  }

  /** A progress handler of t returned a promise: the wrapper then forwards that promise's outcome to t. */
  ghost predicate ProgressAdopted(w: World, t: nat) {
    exists c :: c in w.calls && c.h.target == t && c.h.kind == Progress && c.ret.Promise?
  }

  /** The outcome (k, v) of t follows from its source: passed through, answered by the handler, or adopted. */
  ghost predicate Follows(w: World, t: nat, k: Kind, v: Val) {
    && IsThen(w, t) && k != Progress
    && (|| (FnAt(w, t, k).None? && StatusAt(w, Src(w, t)) == Settled(k, v))
        || (exists v0 :: Answered(w, t, k, v0, Plain(v)))
        || (exists p :: Adopts(w, t, p) && StatusAt(w, p) == Settled(k, v)))
  }

  // ----- nothing illegitimate is ever registered, pending or settled -----

  ghost predicate Excused(w: World, t: nat) {
    !IsThen(w, t) || ProgressAdopted(w, t)
  }

  /** o may be due on the done or fail side k of d. */
  ghost predicate ObsOk(w: World, d: nat, k: Kind, o: Observer) {
    match o
    case Forward(t, k1) =>
      t < |w.cells| && (IsThen(w, t) ==> k1 == k && (ProgressAdopted(w, t) || (Src(w, t) == d && FnAt(w, t, k).None?) || Adopts(w, t, d)))
    case Handle(t, k1, fn) => IsThen(w, t) && k1 == k && Src(w, t) == d && FnAt(w, t, k) == Some(fn)
    case _ => true
  }

  /** o may be registered on a progress side. */
  ghost predicate ProgressObsOk(w: World, o: Observer) {
    match o
    case Forward(t, k1) => t < |w.cells| && (IsThen(w, t) ==> k1 == Progress)
    case Handle(t, k1, fn) => IsThen(w, t) && k1 == Progress && FnAt(w, t, k1) == Some(fn)
    case _ => true
  }

  ghost predicate RegisterOk(w: World, d: nat, k: Kind, o: Observer) {
    if k == Progress then ProgressObsOk(w, o) else ObsOk(w, d, k, o)
  }

  ghost predicate ActOk(w: World, a: Act) {
    match a
    case GFire(t, k, v) => t < |w.cells| && (k == Progress || Excused(w, t) || Follows(w, t, k, v))
    case GAdd(d, k, o) => RegisterOk(w, d, k, o)
    case GVisit(_, _) => true
  }

  ghost predicate HandlingOk(w: World, h: Handling) {
    && IsThen(w, h.target) && FnAt(w, h.target, h.kind) == Some(h.fn)
    && (h.kind != Progress ==> StatusAt(w, Src(w, h.target)) == Settled(h.kind, h.arg))
  }

  ghost predicate FrameOk(w: World, f: Frame) {
    match f
    case UserCode(h) => h.Some? ==> HandlingOk(w, h.value)
    case Glue(acts) => forall a :: a in acts ==> ActOk(w, a)
    case InCallback(_, _) => true
  }

  ghost predicate MastersOk(w: World) {
    forall x :: 0 <= x < |w.whens| ==> !IsThen(w, w.whens[x].master) && w.whens[x].master < |w.cells|
  }

  ghost predicate CellOk(w: World, d: nat)
    requires d < |w.cells|
  {
    && (forall k, o :: k != Progress && o in Due(w.cells[d].d, k) ==> ObsOk(w, d, k, o))
    && (forall o :: o in w.cells[d].d.progress.added ==> ProgressObsOk(w, o))
    && (StatusAt(w, d).Settled? ==> Excused(w, d) || Follows(w, d, StatusAt(w, d).kind, StatusAt(w, d).value))
  }

  ghost predicate ThenInv(w: World) {
    && (forall d: nat :: d < |w.cells| ==> CellOk(w, d))
    && (forall f :: f in w.stack ==> FrameOk(w, f))
    && MastersOk(w)
  }

  // ----- all of this survives growth -----

  lemma AnsweredGrows(w: World, u: World, t: nat, k: Kind, v: Val, ret: Arg)
    requires Grows(w, u) && Answered(w, t, k, v, ret)
    ensures Answered(u, t, k, v, ret)
  {
    hide StatusAt;
    assert Src(w, t) < |w.cells| by { assert StatusAt(w, Src(w, t)).Settled?; StatusInside(w, Src(w, t)); }
  }

  lemma StatusInside(w: World, i: nat)
    requires StatusAt(w, i).Settled?
    ensures i < |w.cells|
  {
  }

  lemma AdoptsGrows(w: World, u: World, t: nat, p: nat)
    requires Grows(w, u) && Adopts(w, t, p)
    ensures Adopts(u, t, p)
  {
    var k, v :| Answered(w, t, k, v, Promise(p));
    AnsweredGrows(w, u, t, k, v, Promise(p));
  }

  lemma FollowsGrows(w: World, u: World, t: nat, k: Kind, v: Val)
    requires Grows(w, u) && Follows(w, t, k, v)
    ensures Follows(u, t, k, v)
  {
    hide StatusAt;
    if FnAt(w, t, k).None? && StatusAt(w, Src(w, t)) == Settled(k, v) {
      StatusInside(w, Src(w, t));
    } else if v0 :| Answered(w, t, k, v0, Plain(v)) {
      AnsweredGrows(w, u, t, k, v0, Plain(v));
    } else {
      var p :| Adopts(w, t, p) && StatusAt(w, p) == Settled(k, v);
      StatusInside(w, p);
      AdoptsGrows(w, u, t, p);
    }
  }

  lemma ExcusedGrows(w: World, u: World, t: nat)
    requires Grows(w, u) && Excused(w, t) && t < |w.cells|
    ensures Excused(u, t)
  {
    if IsThen(w, t) {
      var c :| c in w.calls && c.h.target == t && c.h.kind == Progress && c.ret.Promise?;
      assert c in u.calls;
    }
  }

  lemma ObsGrows(w: World, u: World, d: nat, k: Kind, o: Observer)
    requires Grows(w, u) && ObsOk(w, d, k, o)
    ensures ObsOk(u, d, k, o)
  {
    if o.Forward? && IsThen(w, o.target) {
      if ProgressAdopted(w, o.target) { ExcusedGrows(w, u, o.target); }
      if Adopts(w, o.target, d) { AdoptsGrows(w, u, o.target, d); }
    }
  }

  lemma RegisterGrows(w: World, u: World, d: nat, k: Kind, o: Observer)
    requires Grows(w, u) && RegisterOk(w, d, k, o)
    ensures RegisterOk(u, d, k, o)
  {
    if k != Progress { ObsGrows(w, u, d, k, o); }
  }

  lemma ActGrows(w: World, u: World, a: Act)
    requires Grows(w, u) && ActOk(w, a)
    ensures ActOk(u, a)
  {
    match a
    case GFire(t, k, v) =>
      if k != Progress {
        if Excused(w, t) { ExcusedGrows(w, u, t); } else { FollowsGrows(w, u, t, k, v); }
      }
    case GAdd(d, k, o) => RegisterGrows(w, u, d, k, o);
    case GVisit(_, _) =>
  }

  lemma FrameGrows(w: World, u: World, f: Frame)
    requires Grows(w, u) && FrameOk(w, f)
    ensures FrameOk(u, f)
  {
    hide StatusOf;
    match f
    case UserCode(h) =>
      if h.Some? && h.value.kind != Progress { StatusInside(w, Src(w, h.value.target)); }
    case Glue(acts) => forall a | a in acts ensures ActOk(u, a) { ActGrows(w, u, a); }
    case InCallback(_, _) =>
  }

  /** A cell whose Deferred did not change. */
  lemma CellGrows(w: World, u: World, d: nat)
    requires Grows(w, u) && d < |w.cells| && CellOk(w, d) && u.cells[d] == w.cells[d]
    ensures CellOk(u, d)
  {
    hide Due, StatusOf, Follows, ObsOk, ProgressObsOk, Excused;
    var D := w.cells[d].d;
    forall k, o | k != Progress && o in Due(D, k) ensures ObsOk(u, d, k, o) { ObsGrows(w, u, d, k, o); }
    forall o | o in D.progress.added ensures ProgressObsOk(u, o) {
      assert RegisterOk(w, d, Progress, o);
      RegisterGrows(w, u, d, Progress, o);
    }
    if StatusAt(w, d).Settled? {
      if Excused(w, d) { ExcusedGrows(w, u, d); }
      else { FollowsGrows(w, u, d, StatusAt(w, d).kind, StatusAt(w, d).value); }
    }
  }

  // ----- one operation on one Deferred -----

  /** The operation on list k of d that produced r is legitimate in w; o: the observer it registered. */
  ghost predicate OpOk(w: World, d: nat, k: Kind, r: (Dfd, Option<Observer>), o: Option<Observer>) {
    && d < |w.cells|
    && OnlyDue(w.cells[d].d, k, r, o)
    && (o.Some? ==> RegisterOk(w, d, k, o.value))
    && (StatusAt(w, d).Waiting? && StatusOf(r.0).Settled? ==>
      Excused(w, d) || Follows(w, d, StatusOf(r.0).kind, StatusOf(r.0).value))
    && (k != Progress && r.1.Some? ==> StatusOf(r.0) == Settled(k, Argument(r.0, k)))
  }

  lemma UpdatedCell(w: World, u: World, d: nat, k: Kind, r: (Dfd, Option<Observer>), o: Option<Observer>)
    requires OpOk(w, d, k, r, o) && CellOk(w, d) && Grows(w, u)
    requires u.cells == w.cells[d := w.cells[d].(d := r.0)]
    ensures CellOk(u, d)
    ensures r.1.Some? ==> RegisterOk(u, d, k, r.1.value)
  {
    hide Due, StatusOf, Follows, ObsOk, ProgressObsOk, Excused;
    forall q, x | q != Progress && x in Due(r.0, q) ensures ObsOk(u, d, q, x) {
      if x in Due(w.cells[d].d, q) {
        ObsGrows(w, u, d, q, x);
      } else {
        NewlyDue(w.cells[d].d, k, r, o, q, x);
        RegisterGrows(w, u, d, q, x);
      }
    }
    forall x | x in r.0.progress.added ensures ProgressObsOk(u, x) {
      assert x in w.cells[d].d.progress.added ==> RegisterOk(w, d, Progress, x);
      RegisterGrows(w, u, d, Progress, x);
    }
    if StatusAt(u, d).Settled? {
      if StatusAt(w, d).Settled? {
        if Excused(w, d) { ExcusedGrows(w, u, d); }
        else { FollowsGrows(w, u, d, StatusAt(w, d).kind, StatusAt(w, d).value); }
      } else {
        if Excused(w, d) { ExcusedGrows(w, u, d); }
        else { FollowsGrows(w, u, d, StatusOf(r.0).kind, StatusOf(r.0).value); }
      }
    }
    if r.1.Some? {
      assert RegisterOk(w, d, k, r.1.value);
      RegisterGrows(w, u, d, k, r.1.value);
    }
  }

  /** The frame pushed on entering an observer that was legitimately registered. */
  lemma EnteredFrame(u: World, d: nat, k: Kind, o: Observer, v: Val)
    requires RegisterOk(u, d, k, o) && MastersOk(u)
    requires k != Progress ==> StatusAt(u, d) == Settled(k, v)
    ensures var e := Enter(u, o, v);
      e.stack != u.stack ==> FrameOk(u, e.stack[0])
  {
    hide StatusOf, StatusAt;
    match o
    case User(_) =>
    case Forward(t, k1) =>
      if k != Progress && IsThen(u, t) && !ProgressAdopted(u, t) { assert Follows(u, t, k, v); }
    case Handle(t, k1, fn) =>
    case Collect(x, i) =>
    case CollectProgress(x, i) =>
  }

  /** ThenInv without the shape of the closures of `when`, which it does not read. */
  lemma SameThen(w: World, u: World)
    requires Grows(w, u) && u.cells == w.cells && u.calls == w.calls && |u.whens| == |w.whens|
    requires ThenInv(w)
    requires forall f :: f in u.stack ==> f in w.stack || FrameOk(u, f)
    ensures ThenInv(u)
  {
    hide CellOk, FrameOk;
    forall d: nat | d < |u.cells| ensures CellOk(u, d) { CellGrows(w, u, d); }
    forall f | f in u.stack ensures FrameOk(u, f) { if f in w.stack { FrameGrows(w, u, f); } }
  }

  lemma ApplyThen(w: World, d: nat, k: Kind, r: (Dfd, Option<Observer>), o: Option<Observer>)
    requires ThenInv(w) && OpOk(w, d, k, r, o) && Grows(w, Apply(w, d, k, r))
    requires Effect(w.cells[d].d, k, r, InCallback(d, k) in w.stack)
    ensures ThenInv(Apply(w, d, k, r))
  {
    hide DInv, StatusOf, Firing, Due, CellOk, FrameOk, OnlyDue;
    var w1 := w.(cells := w.cells[d := w.cells[d].(d := r.0)]);
    assert Grows(w, w1) by { UpdateGrows(w, d, k, r); }
    UpdatedCell(w, w1, d, k, r, o);
    forall i: nat | i < |w1.cells| ensures CellOk(w1, i) { if i != d { CellGrows(w, w1, i); } }
    forall f | f in w1.stack ensures FrameOk(w1, f) { FrameGrows(w, w1, f); }
    if r.1.Some? {
      var w2 := Push(w1, InCallback(d, k));
      assert FrameOk(w2, InCallback(d, k)) by { ThenCallbackFrame(w2, d, k); }
      GrowsSelf(w1, w2);
      SameThen(w1, w2);
      var v := Argument(r.0, k);
      var u := Enter(w2, r.1.value, v);
      EnterPushes(w2, r.1.value, v);
      RegisterGrows(w1, w2, d, k, r.1.value);
      EnteredFrame(w2, d, k, r.1.value, v);
      if u.stack != w2.stack { FrameGrows(w2, u, u.stack[0]); }
      forall f | f in u.stack ensures f in w2.stack || FrameOk(u, f) {
        if u.stack != w2.stack { assert u.stack == [u.stack[0]] + w2.stack; }
      }
      SameThen(w2, u);
    }
  }

  lemma ThenCallbackFrame(w: World, d: nat, k: Kind)
    ensures FrameOk(w, InCallback(d, k))
  {
  }

  lemma GrowsSelf(w: World, u: World)
    requires u.cells == w.cells && u.calls == w.calls && u.whens == w.whens
    ensures Grows(w, u)
  {
  }

  lemma UpdateGrows(w: World, d: nat, k: Kind, r: (Dfd, Option<Observer>))
    requires d < |w.cells|
    requires Effect(w.cells[d].d, k, r, InCallback(d, k) in w.stack)
    ensures Grows(w, w.(cells := w.cells[d := w.cells[d].(d := r.0)]))
  {
    hide DInv, StatusOf, Firing;
  }

  // ----- every step -----

  lemma ActThen(w: World, a: Act)
    requires Shape(w) && CellsOk(w) && ThenInv(w) && ActOk(w, a)
    ensures ThenInv(DoAct(w, a))
  {
    hide DInv, StatusOf, Firing, Due, CellOk, FrameOk, OnlyDue, KeepsDue, FireD, AddD, Follows, RegisterOk, Excused, ListsWf;
    ActShape(w, a);
    match a
    case GFire(t, k, v) =>
      if t < |w.cells| {
        FireEffect(w.cells[t].d, k, v);
        FireTraffic(w.cells[t].d, k, v);
        ApplyThen(w, t, k, FireD(w.cells[t].d, k, v), None);
      }
    case GAdd(d, k, o) =>
      if d < |w.cells| {
        AddEffect(w.cells[d].d, k, o);
        AddTraffic(w.cells[d].d, k, o);
        ApplyThen(w, d, k, AddD(w.cells[d].d, k, o), Some(o));
      }
    case GVisit(x, i) => VisitThen(w, x, i);
  }

  lemma VisitThen(w: World, x: nat, i: nat)
    requires ThenInv(w) && Grows(w, Visit(w, x, i))
    ensures ThenInv(Visit(w, x, i))
  {
    hide DInv, StatusOf, Due, CellOk;
    var u := Visit(w, x, i);
    if u.stack != w.stack {
      assert u.stack == [u.stack[0]] + w.stack;
      assert FrameOk(u, u.stack[0]);
    }
    SameThen(w, u);
  }

  /** A fresh Deferred satisfies its part whatever it was made for. */
  lemma AllocateThen(w: World, origin: Origin)
    requires ThenInv(w)
    ensures ThenInv(w.(cells := w.cells + [Cell(NewDfd(), origin)]))
  {
    NewDfdInv();
    FreshDue();
    var u := w.(cells := w.cells + [Cell(NewDfd(), origin)]);
    assert StatusAt(u, |w.cells|) == Waiting;
    hide DInv, StatusOf, Due, FrameOk, NewDfd, ObsOk, ProgressObsOk;
    forall d: nat | d < |u.cells| ensures CellOk(u, d) {
      if d < |w.cells| { hide CellOk; CellGrows(w, u, d); }
    }
    forall f | f in u.stack ensures FrameOk(u, f) { FrameGrows(w, u, f); }
  }

  lemma FreshDue()
    ensures forall k :: Due(NewDfd(), k) == []
    ensures NewDfd().progress.added == []
  {
  }

  lemma ActionThen(w: World, a: Action)
    requires Shape(w) && CellsOk(w) && ThenInv(w)
    ensures ThenInv(DoAction(w, a))
  {
    hide DInv, StatusOf, Firing, Due, CellOk, FrameOk, OnlyDue, KeepsDue, FireD, AddD, Follows, Excused, ListsWf;
    ActionShape(w, a);
    match a
    case MakeDeferred => AllocateThen(w, Public);
    case Settle(d, k, v) =>
      if d < |w.cells| && w.cells[d].origin == Public {
        assert Excused(w, d) by { PublicExcused(w, d); }
        FireEffect(w.cells[d].d, k, v);
        FireTraffic(w.cells[d].d, k, v);
        ApplyThen(w, d, k, FireD(w.cells[d].d, k, v), None);
      }
    case Listen(d, k, n) =>
      if d < |w.cells| {
        AddEffect(w.cells[d].d, k, User(n));
        AddTraffic(w.cells[d].d, k, User(n));
        ApplyThen(w, d, k, AddD(w.cells[d].d, k, User(n)), Some(User(n)));
      }
    case Then(d, fns) => if d < |w.cells| { StartThen(w, d, fns); }
    case WhenAll(args) =>
      if (forall i :: 0 <= i < |args| ==> ValidArg(w, args[i])) && !(|args| == 1 && args[0].Promise?) {
        StartWhenThen(w, args);
      }
  }

  lemma PublicExcused(w: World, d: nat)
    requires d < |w.cells| && w.cells[d].origin == Public
    ensures Excused(w, d)
  {
  }

  lemma StartThen(w: World, d: nat, fns: Fns)
    requires ThenInv(w) && CellsOk(w) && d < |w.cells|
    ensures ThenInv(DoAction(w, Then(d, fns)))
  {
    AllocateThen(w, ThenOf(d, fns));
    hide DInv, StatusOf, Due, CellOk, NewDfd, ListsWf;
    var w1 := w.(cells := w.cells + [Cell(NewDfd(), ThenOf(d, fns))]);
    var u := DoAction(w, Then(d, fns));
    assert FrameOk(u, u.stack[0]);
    GrowsSelf(w1, u);
    SameThen(w1, u);
  }

  lemma StartWhenThen(w: World, args: seq<Arg>)
    requires ThenInv(w) && !(|args| == 1 && args[0].Promise?)
    ensures ThenInv(StartWhen(w, args))
  {
    AllocateThen(w, WhenOf(|w.whens|));
    hide DInv, StatusOf, Due, CellOk, NewDfd;
    var w1 := w.(cells := w.cells + [Cell(NewDfd(), WhenOf(|w.whens|))]);
    var u := StartWhen(w, args);
    assert FrameOk(u, u.stack[0]);
    assert u.stack == [u.stack[0]] + w1.stack;
    forall d: nat | d < |u.cells| ensures CellOk(u, d) { CellGrows(w1, u, d); }
    forall f | f in u.stack ensures FrameOk(u, f) { if f in w1.stack { FrameGrows(w1, u, f); } }
  }

  lemma ReturnThen(w: World, h: Option<Handling>, ret: Arg)
    requires ThenInv(w) && w.stack != [] && w.stack[0] == UserCode(h)
    ensures ThenInv(DoReturn(w, h, ret))
  {
    hide DInv, StatusOf, Due, CellOk;
    var u := DoReturn(w, h, ret);
    if |w.stack| > 1 && ValidArg(w, ret) {
      if h.Some? {
        assert FrameOk(w, w.stack[0]);
        AnswerFrame(w, u, h.value, ret);
      }
      assert w.stack == [w.stack[0]] + w.stack[1..];
      assert Grows(w, u);
      forall d: nat | d < |u.cells| ensures CellOk(u, d) { CellGrows(w, u, d); }
      forall f | f in u.stack ensures FrameOk(u, f) { if f in w.stack { FrameGrows(w, u, f); } }
    }
  }

  /** What the wrapper does with an answer is legitimate. */
  lemma AnswerFrame(w: World, u: World, h: Handling, ret: Arg)
    requires HandlingOk(w, h) && Grows(w, u)
    requires HandlerCall(h, ret) in u.calls
    ensures FrameOk(u, Glue(AfterHandler(h, ret)))
  {
    hide StatusOf;
    var t := h.target;
    if h.kind == Progress {
      if ret.Promise? { assert ProgressAdopted(u, t); }
    } else {
      StatusInside(w, Src(w, t));
      assert Answered(u, t, h.kind, h.arg, ret);
      if ret.Promise? { assert Adopts(u, t, ret.id); }
    }
  }

  lemma StepThen(w: World, c: Choice)
    requires Shape(w) && CellsOk(w) && ThenInv(w)
    ensures ThenInv(Step(w, c))
  {
    hide DInv, FireD, AddD, FinishedD, StatusOf, Firing, Due, CellOk, OnlyDue, KeepsDue, ListsWf, Follows, Excused, RegisterOk;
    StepShape(w, c);
    PopsThen(w);
    var below := w.(stack := w.stack[1..]);
    match w.stack[0]
    case InCallback(d, k) =>
      PopShape(w);
      FinishedEffect(w.cells[d].d, k);
      FinishedTraffic(w.cells[d].d, k);
      var r := FinishedD(w.cells[d].d, k);
      ApplyShape(below, d, k, r);
      ApplyThen(below, d, k, r, None);
    case Glue(acts) =>
      PopShape(w);
      if acts != [] {
        assert FrameOk(w, w.stack[0]);
        var rest := Push(below, Glue(acts[1..]));
        assert FrameOk(rest, Glue(acts[1..])) && ActOk(rest, acts[0]) by {
          GrowsSelf(w, rest);
          forall a | a in acts ensures ActOk(rest, a) { ActGrows(w, rest, a); }
        }
        GrowsSelf(below, rest);
        SameThen(below, rest);
        PushShape(below, rest, -1, Done);
        ActThen(rest, acts[0]);
      }
    case UserCode(h) =>
      match c
      case Act(a) => ActionThen(w, a);
      case Return(ret) => ReturnThen(w, h, ret);
  }

  lemma PopsThen(w: World)
    requires ThenInv(w) && w.stack != []
    ensures ThenInv(w.(stack := w.stack[1..]))
  {
    var u := w.(stack := w.stack[1..]);
    GrowsSelf(w, u);
    SameThen(w, u);
  }
}
