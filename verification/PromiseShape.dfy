/** The control stack agrees with the lists it suspends, and the past is never revised. */
module PromiseShape {
  import opened Prelude
  import opened Observers
  import opened Deferred
  import opened DeferredRuns
  import opened DeferredEffects
  import opened Promises

  /** List k of d is firing exactly when it is suspended on the stack; (xd, xk) is exempt. */
  ghost predicate FlagsOk(w: World, xd: int, xk: Kind) {
    forall i: nat, k :: i < |w.cells| && !(i == xd && k == xk) ==>
      (Firing(w.cells[i].d, k) <==> InCallback(i, k) in w.stack)
  }

  ghost predicate ShapeBut(w: World, xd: int, xk: Kind) {
    && (forall i :: 0 <= i < |w.cells| ==> DInv(w.cells[i].d))
    && w.stack != [] && w.stack[|w.stack| - 1] == UserCode(None)
    && (forall f :: f in w.stack && f.InCallback? ==> f.d < |w.cells|)
    && (forall a, b :: 0 <= a < b < |w.stack| && w.stack[a].InCallback? ==> w.stack[a] != w.stack[b])
    && FlagsOk(w, xd, xk)
  }

  ghost predicate Shape(w: World) {
    ShapeBut(w, -1, Done)
  }

  /** What later worlds keep of earlier ones. */
  ghost predicate Grows(w: World, u: World) {
    && |w.cells| <= |u.cells|
    && (forall i :: 0 <= i < |w.cells| ==> u.cells[i].origin == w.cells[i].origin)
    && (forall i: nat :: i < |w.cells| && StatusAt(w, i).Settled? ==> StatusAt(u, i) == StatusAt(w, i))
    && |w.whens| <= |u.whens|
    && (forall x :: 0 <= x < |w.whens| ==> u.whens[x].args == w.whens[x].args && u.whens[x].master == w.whens[x].master)
    && w.calls <= u.calls
  }

  lemma GrowsTransitive(a: World, b: World, c: World)
    requires Grows(a, b) && Grows(b, c)
    ensures Grows(a, c)
  {
    hide StatusOf;
  }

  /** Neither frame nor closure bookkeeping disturbs the shape. */
  ghost predicate PushesLibrary(w: World, u: World) {
    && u.cells == w.cells
    && (u.stack == w.stack || (u.stack != [] && !u.stack[0].InCallback? && u.stack[1..] == w.stack))
  }

  lemma PushShape(w: World, u: World, xd: int, xk: Kind)
    requires ShapeBut(w, xd, xk) && PushesLibrary(w, u)
    ensures ShapeBut(u, xd, xk)
  {
    hide DInv, Firing;
    if u.stack != w.stack {
      assert u.stack == [u.stack[0]] + w.stack;
      forall a, b | 0 <= a < b < |u.stack| && u.stack[a].InCallback?
        ensures u.stack[a] != u.stack[b]
      {
        assert u.stack[a] == w.stack[a - 1] && u.stack[b] == w.stack[b - 1];
      }
      assert u.stack[|u.stack| - 1] == w.stack[|w.stack| - 1];
    }
  }

  lemma EnterPushes(w: World, o: Observer, v: Val)
    ensures PushesLibrary(w, Enter(w, o, v)) && Grows(w, Enter(w, o, v))
    ensures Enter(w, o, v).calls == w.calls && |Enter(w, o, v).whens| == |w.whens|
  {
    hide StatusOf;
    var u := Enter(w, o, v);
    if u.stack != w.stack { assert u.stack == [u.stack[0]] + w.stack; }
  }

  /** Installing the outcome of an operation on list k of d. */
  lemma ApplyShape(w: World, d: nat, k: Kind, r: (Dfd, Option<Observer>))
    requires d < |w.cells| && ShapeBut(w, d, k)
    requires Effect(w.cells[d].d, k, r, InCallback(d, k) in w.stack)
    ensures Shape(Apply(w, d, k, r)) && Grows(w, Apply(w, d, k, r))
  {
    hide DInv, Due;
    var w1 := w.(cells := w.cells[d := w.cells[d].(d := r.0)]);
    assert Grows(w, w1) by { hide StatusOf; }
    hide StatusOf;
    assert FlagsOk(w1, d, k);
    if r.1.None? {
    } else {
      var w2 := Push(w1, InCallback(d, k));
      assert Shape(w2) by { SuspendShape(w1, d, k); }
      EnterPushes(w2, r.1.value, Argument(r.0, k));
      PushShape(w2, Enter(w2, r.1.value, Argument(r.0, k)), -1, Done);
      GrowsTransitive(w, w2, Enter(w2, r.1.value, Argument(r.0, k)));
    }
  }

  lemma SuspendShape(w: World, d: nat, k: Kind)
    requires d < |w.cells| && ShapeBut(w, d, k) && InCallback(d, k) !in w.stack
    requires Firing(w.cells[d].d, k)
    ensures Shape(Push(w, InCallback(d, k)))
  {
    hide DInv, Firing;
    var u := Push(w, InCallback(d, k));
    forall a, b | 0 <= a < b < |u.stack| && u.stack[a].InCallback?
      ensures u.stack[a] != u.stack[b]
    {
      assert u.stack[b] == w.stack[b - 1];
      if a > 0 { assert u.stack[a] == w.stack[a - 1]; }
    }
    assert u.stack[|u.stack| - 1] == w.stack[|w.stack| - 1];
  }

  lemma ActShape(w: World, a: Act)
    requires Shape(w) && CellsOk(w)
    ensures Shape(DoAct(w, a)) && Grows(w, DoAct(w, a))
  {
    hide DInv, FireD, AddD, StatusOf, Firing, ListsWf;
    match a
    case GFire(t, k, v) =>
      if t < |w.cells| {
        FireEffect(w.cells[t].d, k, v);
        ApplyShape(w, t, k, FireD(w.cells[t].d, k, v));
      }
    case GAdd(d, k, o) =>
      if d < |w.cells| {
        AddEffect(w.cells[d].d, k, o);
        ApplyShape(w, d, k, AddD(w.cells[d].d, k, o));
      }
    case GVisit(x, i) =>
      var u := DoAct(w, a);
      if u.stack != w.stack { assert u.stack == [u.stack[0]] + w.stack; }
      PushShape(w, u, -1, Done);
  }

  /** A new Deferred: nothing registered, nothing firing. */
  lemma AllocateShape(w: World, origin: Origin)
    requires Shape(w)
    ensures Shape(w.(cells := w.cells + [Cell(NewDfd(), origin)]))
    ensures Grows(w, w.(cells := w.cells + [Cell(NewDfd(), origin)]))
  {
    NewDfdInv();
    assert forall k :: !Firing(NewDfd(), k);
    hide DInv, StatusOf, NewDfd, Firing;
    var u := w.(cells := w.cells + [Cell(NewDfd(), origin)]);
    forall k
      ensures InCallback(|w.cells|, k) !in w.stack
    {
    }
  }

  lemma StartThenShape(w: World, d: nat, fns: Fns)
    requires Shape(w) && CellsOk(w) && d < |w.cells|
    ensures Shape(DoAction(w, Then(d, fns))) && Grows(w, DoAction(w, Then(d, fns)))
  {
    hide DInv, StatusOf, Firing, ListsWf, NewDfd;
    AllocateShape(w, ThenOf(d, fns));
    PushShape(w.(cells := w.cells + [Cell(NewDfd(), ThenOf(d, fns))]), DoAction(w, Then(d, fns)), -1, Done);
  }

  lemma StartWhenShape(w: World, args: seq<Arg>)
    requires Shape(w)
    ensures Shape(StartWhen(w, args)) && Grows(w, StartWhen(w, args))
  {
    hide DInv, StatusOf, Firing, ListsWf, NewDfd;
    if !(|args| == 1 && args[0].Promise?) {
      AllocateShape(w, WhenOf(|w.whens|));
      var w1 := w.(cells := w.cells + [Cell(NewDfd(), WhenOf(|w.whens|))]);
      var u := StartWhen(w, args);
      assert u.stack == [u.stack[0]] + w1.stack;
      PushShape(w1, u, -1, Done);
    }
  }

  lemma ActionShape(w: World, a: Action)
    requires Shape(w) && CellsOk(w)
    ensures Shape(DoAction(w, a)) && Grows(w, DoAction(w, a))
  {
    hide DInv, FireD, AddD, StatusOf, Firing, ListsWf, NewDfd;
    match a
    case MakeDeferred => AllocateShape(w, Public);
    case Settle(d, k, v) =>
      if d < |w.cells| {
        FireEffect(w.cells[d].d, k, v);
        ApplyShape(w, d, k, FireD(w.cells[d].d, k, v));
      }
    case Listen(d, k, n) =>
      if d < |w.cells| {
        AddEffect(w.cells[d].d, k, User(n));
        ApplyShape(w, d, k, AddD(w.cells[d].d, k, User(n)));
      }
    case Then(d, fns) =>
      if d < |w.cells| { StartThenShape(w, d, fns); }
    case WhenAll(args) =>
      if forall i :: 0 <= i < |args| ==> ValidArg(w, args[i]) { StartWhenShape(w, args); }
  }

  /** Taking a frame off the stack. */
  lemma PopShape(w: World)
    requires Shape(w) && |w.stack| > 1
    ensures var u := w.(stack := w.stack[1..]);
      if w.stack[0].InCallback? then
        ShapeBut(u, w.stack[0].d, w.stack[0].kind) && w.stack[0] !in u.stack
      else Shape(u)
  {
    hide DInv, Firing;
    var u := w.(stack := w.stack[1..]);
    forall f | f != w.stack[0]
      ensures f in u.stack <==> f in w.stack
    {
    }
  }

  lemma StepShape(w: World, c: Choice)
    requires Shape(w) && CellsOk(w)
    ensures Shape(Step(w, c)) && Grows(w, Step(w, c))
  {
    hide DInv, FireD, AddD, FinishedD, StatusOf, Firing, ListsWf;
    var below := w.(stack := w.stack[1..]);
    match w.stack[0]
    case InCallback(d, k) =>
      PopShape(w);
      FinishedEffect(w.cells[d].d, k);
      ApplyShape(below, d, k, FinishedD(w.cells[d].d, k));
    case Glue(acts) =>
      PopShape(w);
      if acts != [] {
        PushShape(below, Push(below, Glue(acts[1..])), -1, Done);
        ActShape(Push(below, Glue(acts[1..])), acts[0]);
      }
    case UserCode(h) =>
      match c
      case Act(a) => ActionShape(w, a);
      case Return(ret) =>
        if |w.stack| > 1 && ValidArg(w, ret) {
          PopShape(w);
          if h.Some? { PushShape(below, Step(w, c), -1, Done); }
        }
  }

  /** No library code is pending and no list is suspended: control is at the event loop. */
  ghost predicate Quiescent(w: World) {
    w.stack == [UserCode(None)]
  }

  lemma QuiescentIdle(w: World, i: nat, k: Kind)
    requires Shape(w) && Quiescent(w) && i < |w.cells|
    ensures !Firing(w.cells[i].d, k)
  {
    hide DInv;
    assert InCallback(i, k) !in w.stack;
  }
}
