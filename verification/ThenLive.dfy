/** Nothing a derived promise waits for is ever lost, so at rest `then` is a pure function of outcomes. */
module ThenLive {
  import opened Prelude
  import opened Observers
  import opened Deferred
  import opened DeferredRuns
  import opened DeferredEffects
  import opened Promises
  import opened PromiseShape
  import opened Then

  /** o will settle t from side k. */
  predicate Carries(o: Observer, t: nat, k: Kind) {
    match o
    case Forward(t1, k1) => t1 == t && k1 == k
    case Handle(t1, k1, _) => t1 == t && k1 == k
    case _ => false
  }

  /** The frame is about to register on side k of p an observer that carries t. */
  ghost predicate Registers(f: Frame, p: nat, t: nat, k: Kind) {
    f.Glue? && exists a :: a in f.acts && a.GAdd? && a.to == p && a.kind == k && Carries(a.obs, t, k)
  }

  /** The frame is about to settle t, or runs the handler that will. */
  ghost predicate WillSettle(f: Frame, t: nat) {
    || (f.UserCode? && f.handling.Some? && f.handling.value.target == t && f.handling.value.kind != Progress)
    || (f.Glue? && exists a :: a in f.acts && a.GFire? && a.target == t && a.kind != Progress)
  }

  ghost predicate InFlight(w: World, t: nat) {
    exists f :: f in w.stack && WillSettle(f, t)
  }

  /** If p settles on side k, t will hear of it. */
  ghost predicate Attached(w: World, p: nat, t: nat, k: Kind) {
    || (StatusAt(w, p).Settled? && StatusAt(w, p).kind != k)
    || (p < |w.cells| && exists o :: o in Due(w.cells[p].d, k) && Carries(o, t, k))
    || (exists f :: f in w.stack && Registers(f, p, t, k))
  }

  ghost predicate Linked(w: World, p: nat, t: nat) {
    Attached(w, p, t, Done) && Attached(w, p, t, Fail)
  }

  ghost predicate Live(w: World, t: nat) {
    && IsThen(w, t)
    && (StatusAt(w, t).Waiting? ==>
      InFlight(w, t) || Linked(w, Src(w, t), t) || exists p :: Adopts(w, t, p) && Linked(w, p, t))
  }

  ghost predicate AllLive(w: World) {
    forall t: nat :: IsThen(w, t) ==> Live(w, t)
  }

  /** Everything w has on its stack, u has too. */
  ghost predicate KeepsFrames(w: World, u: World) {
    forall f :: f in w.stack ==> f in u.stack
  }

  // ----- a step that changes no Deferred -----

  lemma AttachedFrames(w: World, u: World, p: nat, t: nat, k: Kind)
    requires Grows(w, u) && KeepsFrames(w, u) && Attached(w, p, t, k)
    requires p < |w.cells| ==> u.cells[p] == w.cells[p]
    ensures Attached(u, p, t, k)
  {
    hide StatusOf, Due, Registers, Carries;
  }

  lemma LiveFrames(w: World, u: World, t: nat)
    requires Grows(w, u) && KeepsFrames(w, u) && Live(w, t) && w.cells <= u.cells
    ensures Live(u, t)
  {
    hide StatusAt, StatusOf, Due, Attached, Answered, WillSettle;
    assert StatusAt(u, t) == StatusAt(w, t) by { SameCell(w, u, t); }
    if Linked(w, Src(w, t), t) {
      AttachedFrames(w, u, Src(w, t), t, Done);
      AttachedFrames(w, u, Src(w, t), t, Fail);
    } else if p :| Adopts(w, t, p) && Linked(w, p, t) {
      AdoptsGrows(w, u, t, p);
      AttachedFrames(w, u, p, t, Done);
      AttachedFrames(w, u, p, t, Fail);
    }
  }

  lemma SameCell(w: World, u: World, t: nat)
    requires t < |w.cells| && w.cells <= u.cells
    ensures StatusAt(u, t) == StatusAt(w, t)
  {
  }

  // ----- a step that operates on list k of d -----

  ghost predicate Traffic(w: World, d: nat, k: Kind, r: (Dfd, Option<Observer>))
    requires d < |w.cells|
  {
    && KeepsDue(w.cells[d].d, k, r)
    && Effect(w.cells[d].d, k, r, InCallback(d, k) in w.stack)
  }

  lemma ApplyFrames(w: World, d: nat, k: Kind, r: (Dfd, Option<Observer>))
    requires d < |w.cells|
    ensures KeepsFrames(w, Apply(w, d, k, r))
    ensures Apply(w, d, k, r).cells == w.cells[d := w.cells[d].(d := r.0)]
  {
  }

  /** Entering an observer that carries t from the done or fail side puts t in flight. */
  lemma EnterInFlight(w: World, d: nat, k: Kind, r: (Dfd, Option<Observer>), t: nat)
    requires d < |w.cells| && k != Progress && r.1.Some? && Carries(r.1.value, t, k)
    ensures InFlight(Apply(w, d, k, r), t)
  {
    var u := Apply(w, d, k, r);
    assert WillSettle(u.stack[0], t);
  }

  lemma AttachedApply(w: World, d: nat, k: Kind, r: (Dfd, Option<Observer>), p: nat, t: nat, q: Kind)
    requires d < |w.cells| && Traffic(w, d, k, r) && q != Progress && Attached(w, p, t, q)
    ensures Attached(Apply(w, d, k, r), p, t, q) || InFlight(Apply(w, d, k, r), t)
  {
    hide DInv, StatusOf, Due, Registers, Firing, InFlight;
    var u := Apply(w, d, k, r);
    ApplyFrames(w, d, k, r);
    if p == d && !(StatusAt(w, p).Settled? && StatusAt(w, p).kind != q) {
      if o :| o in Due(w.cells[p].d, q) && Carries(o, t, q) {
        StillDue(w.cells[d].d, k, r, q, o);
        if q == k && r.1 == Some(o) { EnterInFlight(w, d, k, r, t); }
        else if o in Due(r.0, q) { assert o in Due(u.cells[p].d, q); }
      }
    }
  }

  lemma LiveApply(w: World, d: nat, k: Kind, r: (Dfd, Option<Observer>), t: nat)
    requires d < |w.cells| && Traffic(w, d, k, r) && Live(w, t) && Grows(w, Apply(w, d, k, r))
    ensures Live(Apply(w, d, k, r), t)
  {
    hide DInv, StatusOf, Due, Attached, WillSettle, Traffic, Answered, StatusAt, Apply;
    var u := Apply(w, d, k, r);
    ApplyFrames(w, d, k, r);
    if StatusAt(u, t).Waiting? && !InFlight(u, t) {
      assert StatusAt(w, t).Waiting?;
      if Linked(w, Src(w, t), t) {
        AttachedApply(w, d, k, r, Src(w, t), t, Done);
        AttachedApply(w, d, k, r, Src(w, t), t, Fail);
      } else {
        var p :| Adopts(w, t, p) && Linked(w, p, t);
        AttachedApply(w, d, k, r, p, t, Done);
        AttachedApply(w, d, k, r, p, t, Fail);
        AdoptsGrows(w, u, t, p);
      }
    }
  }

  lemma AllLiveApply(w: World, d: nat, k: Kind, r: (Dfd, Option<Observer>))
    requires d < |w.cells| && Traffic(w, d, k, r) && AllLive(w) && Grows(w, Apply(w, d, k, r))
    ensures AllLive(Apply(w, d, k, r))
  {
    hide Live, Apply, Traffic;
    ApplyFrames(w, d, k, r);
    forall t: nat | IsThen(Apply(w, d, k, r), t) ensures Live(Apply(w, d, k, r), t) { LiveApply(w, d, k, r, t); }
  }

  // ----- a step that consumes the top frame, or one act of it -----

  /** u is w with its top frame replaced by fewer acts of the same frame, or by nothing. */
  ghost predicate Consumes(w: World, u: World) {
    && w.stack != []
    && u.cells == w.cells && u.calls == w.calls && u.whens == w.whens
    && forall f :: f in w.stack[1..] ==> f in u.stack
  }

  lemma TopOrBelow(w: World, f: Frame)
    requires f in w.stack
    ensures f == w.stack[0] || f in w.stack[1..]
  {
  }

  lemma InFlightConsume(w: World, u: World, t: nat)
    requires Consumes(w, u) && InFlight(w, t)
    ensures InFlight(u, t) || WillSettle(w.stack[0], t)
  {
    hide WillSettle;
    var f :| f in w.stack && WillSettle(f, t);
    TopOrBelow(w, f);
  }

  lemma AttachedConsume(w: World, u: World, p: nat, t: nat, k: Kind)
    requires Consumes(w, u) && Attached(w, p, t, k)
    ensures Attached(u, p, t, k) || Registers(w.stack[0], p, t, k)
  {
    hide Registers, Due, StatusOf, Carries;
    if f :| f in w.stack && Registers(f, p, t, k) { TopOrBelow(w, f); }
  }

  /** Dropping a frame that promises nothing. */
  lemma DropIdle(w: World)
    requires w.stack != [] && AllLive(w)
    requires forall t :: !WillSettle(w.stack[0], t)
    requires forall p, t, k :: !Registers(w.stack[0], p, t, k)
    ensures AllLive(w.(stack := w.stack[1..]))
  {
    hide Registers, WillSettle, Attached, StatusAt, Answered;
    var u := w.(stack := w.stack[1..]);
    GrowsSelf(w, u);
    forall t: nat | IsThen(u, t) ensures Live(u, t) {
      assert Live(w, t);
      assert StatusAt(u, t) == StatusAt(w, t) by { SameCell(w, u, t); }
      if InFlight(w, t) { InFlightConsume(w, u, t); }
      if Linked(w, Src(w, t), t) { LinkedConsume(w, u, Src(w, t), t); }
      if p :| Adopts(w, t, p) && Linked(w, p, t) { LinkedConsume(w, u, p, t); AdoptsGrows(w, u, t, p); }
    }
  }

  lemma LinkedConsume(w: World, u: World, p: nat, t: nat)
    requires Consumes(w, u) && Linked(w, p, t)
    requires forall k :: !Registers(w.stack[0], p, t, k)
    ensures Linked(u, p, t)
  {
    hide Attached, Registers;
    AttachedConsume(w, u, p, t, Done);
    AttachedConsume(w, u, p, t, Fail);
  }

  // ----- library acts -----

  /** Attachments other than the act's own survive the act. */
  lemma AttachedAct(w: World, a: Act, p: nat, t: nat, q: Kind)
    requires Shape(w) && CellsOk(w) && q != Progress && Attached(w, p, t, q)
    ensures Attached(DoAct(w, a), p, t, q) || InFlight(DoAct(w, a), t)
  {
    hide DInv, StatusOf, Due, Registers, Firing, InFlight, FireD, AddD, Attached, KeepsDue, OnlyDue, Apply, ListsWf;
    ActShape(w, a);
    match a
    case GFire(d, k, v) =>
      if d < |w.cells| {
        FireEffect(w.cells[d].d, k, v);
        FireTraffic(w.cells[d].d, k, v);
        AttachedApply(w, d, k, FireD(w.cells[d].d, k, v), p, t, q);
      }
    case GAdd(d, k, o) =>
      if d < |w.cells| {
        AddEffect(w.cells[d].d, k, o);
        AddTraffic(w.cells[d].d, k, o);
        AttachedApply(w, d, k, AddD(w.cells[d].d, k, o), p, t, q);
      }
    case GVisit(x, i) =>
      AttachedFrames(w, DoAct(w, a), p, t, q);
  }

  lemma ActKeepsFrames(w: World, a: Act)
    requires CellsOk(w)
    ensures KeepsFrames(w, DoAct(w, a))
  {
    hide ListsWf, FireD, AddD;
  }

  /** A registration act makes its attachment good. */
  lemma AddAttaches(w: World, d: nat, k: Kind, o: Observer, t: nat)
    requires Shape(w) && CellsOk(w) && k != Progress && Carries(o, t, k) && d < |w.cells|
    ensures Attached(DoAct(w, GAdd(d, k, o)), d, t, k) || InFlight(DoAct(w, GAdd(d, k, o)), t)
  {
    hide DInv, StatusOf, Due, Firing, AddD, KeepsDue, OnlyDue, InFlight, Carries, Effect;
    var r := AddD(w.cells[d].d, k, o);
    AddEffect(w.cells[d].d, k, o);
    AddTraffic(w.cells[d].d, k, o);
    ApplyFrames(w, d, k, r);
    if r.1 == Some(o) { EnterInFlight(w, d, k, r, t); }
  }

  /** A settling act settles. */
  lemma FireSettles(w: World, t: nat, k: Kind, v: Val)
    requires Shape(w) && CellsOk(w) && k != Progress && t < |w.cells|
    ensures StatusAt(DoAct(w, GFire(t, k, v)), t).Settled?
  {
    hide DInv, StatusOf, Firing, FireD;
    FireTraffic(w.cells[t].d, k, v);
    ApplyFrames(w, t, k, FireD(w.cells[t].d, k, v));
  }

  /** One act of the running library frame. */
  lemma AttachedGlue(w: World, rest: World, a: Act, p: nat, t: nat, q: Kind)
    requires Shape(rest) && CellsOk(rest) && q != Progress && Consumes(w, rest)
    requires w.stack[0].Glue? && w.stack[0].acts != [] && a == w.stack[0].acts[0]
    requires Glue(w.stack[0].acts[1..]) in rest.stack
    requires Attached(w, p, t, q) && p < |w.cells|
    ensures Attached(DoAct(rest, a), p, t, q) || InFlight(DoAct(rest, a), t)
  {
    hide DInv, StatusOf, Due, Firing, InFlight, Attached, DoAct, ListsWf;
    var acts := w.stack[0].acts;
    if Registers(Glue(acts[1..]), p, t, q) { RegistersAttaches(rest, Glue(acts[1..]), p, t, q); }
    if Attached(rest, p, t, q) {
      AttachedAct(rest, a, p, t, q);
    } else {
      AttachedConsume(w, rest, p, t, q);
      var b :| b in acts && b.GAdd? && b.to == p && b.kind == q && Carries(b.obs, t, q);
      AddAttaches(rest, p, q, b.obs, t);
    }
  }

  lemma RegistersAttaches(w: World, f: Frame, p: nat, t: nat, k: Kind)
    requires f in w.stack && Registers(f, p, t, k)
    ensures Attached(w, p, t, k)
  {
  }

  lemma InFlightGlue(w: World, rest: World, a: Act, t: nat)
    requires Shape(rest) && CellsOk(rest) && Consumes(w, rest) && t < |w.cells|
    requires w.stack[0].Glue? && w.stack[0].acts != [] && a == w.stack[0].acts[0]
    requires Glue(w.stack[0].acts[1..]) in rest.stack
    requires InFlight(w, t)
    ensures InFlight(DoAct(rest, a), t) || StatusAt(DoAct(rest, a), t).Settled?
  {
    hide DInv, StatusOf, StatusAt, Firing, DoAct, ListsWf;
    ActKeepsFrames(rest, a);
    InFlightConsume(w, rest, t);
    if !InFlight(rest, t) {
      var acts := w.stack[0].acts;
      var b :| b in acts && b.GFire? && b.target == t && b.kind != Progress;
      FireSettles(rest, t, b.kind, b.arg);
    }
  }

  lemma LiveGlue(w: World, rest: World, a: Act, t: nat)
    requires Shape(rest) && CellsOk(rest) && Consumes(w, rest)
    requires w.stack[0].Glue? && w.stack[0].acts != [] && a == w.stack[0].acts[0]
    requires Glue(w.stack[0].acts[1..]) in rest.stack
    requires Live(w, t) && LinksInside(w)
    ensures Live(DoAct(rest, a), t)
  {
    hide DInv, StatusOf, StatusAt, Firing, DoAct, ListsWf, Attached, InFlight, Answered;
    var u := DoAct(rest, a);
    ActShape(rest, a);
    GrowsSelf(w, rest);
    GrowsTransitive(w, rest, u);
    if StatusAt(u, t).Waiting? && !InFlight(u, t) {
      if InFlight(w, t) { InFlightGlue(w, rest, a, t); }
      if StatusAt(w, t).Settled? {
      } else if Linked(w, Src(w, t), t) {
        AttachedGlue(w, rest, a, Src(w, t), t, Done);
        AttachedGlue(w, rest, a, Src(w, t), t, Fail);
      } else if p :| Adopts(w, t, p) && Linked(w, p, t) {
        AdoptedInside(w, t, p);
        AttachedGlue(w, rest, a, p, t, Done);
        AttachedGlue(w, rest, a, p, t, Fail);
        AdoptsGrows(w, u, t, p);
      }
    }
  }

  /** Sources and adopted promises exist. */
  ghost predicate LinksInside(w: World) {
    && (forall t: nat :: IsThen(w, t) ==> Src(w, t) < |w.cells|)
    && (forall c :: c in w.calls && c.ret.Promise? ==> c.ret.id < |w.cells|)
    && (forall c :: c in w.calls ==> CallOk(w, c))
  }

  /** A handler call is a call of one of the handlers given to `then`. */
  ghost predicate CallOk(w: World, c: HandlerCall) {
    IsThen(w, c.h.target) && FnAt(w, c.h.target, c.h.kind) == Some(c.h.fn)
  }

  lemma AdoptedInside(w: World, t: nat, p: nat)
    requires LinksInside(w) && Adopts(w, t, p)
    ensures p < |w.cells|
  {
    hide StatusOf;
    var k, v :| Answered(w, t, k, v, Promise(p));
  }

  lemma StepLinks(w: World, c: Choice)
    requires Shape(w) && CellsOk(w) && ThenInv(w) && LinksInside(w)
    ensures LinksInside(Step(w, c))
  {
    StepShape(w, c);
    hide Shape, CellsOk, Step, StatusAt, CellOk;
    var u := Step(w, c);
    StepOrigins(w, c);
    forall t: nat | IsThen(u, t) ensures Src(u, t) < |u.cells| {
      if t < |w.cells| { assert u.cells[t].origin == w.cells[t].origin; assert IsThen(w, t); }
    }
    forall x | x in u.calls ensures CallOk(u, x) && (x.ret.Promise? ==> x.ret.id < |u.cells|) {
      if x !in w.calls { StepCalls(w, c, x); }
      assert CallOk(w, x);
    }
  }

  lemma StepOrigins(w: World, c: Choice)
    requires Shape(w) && CellsOk(w)
    ensures forall t: nat :: |w.cells| <= t < |Step(w, c).cells| && Step(w, c).cells[t].origin.ThenOf? ==>
      Step(w, c).cells[t].origin.src < |w.cells|
  {
    hide DInv, FireD, AddD, FinishedD, StatusOf, Firing, ListsWf;
  }

  lemma StepCalls(w: World, c: Choice, x: HandlerCall)
    requires Shape(w) && CellsOk(w) && ThenInv(w) && x in Step(w, c).calls && x !in w.calls
    ensures x.ret.Promise? ==> x.ret.id < |w.cells|
    ensures CallOk(w, x)
  {
    hide DInv, FireD, AddD, FinishedD, StatusOf, StatusAt, Firing, ListsWf, CellOk;
    assert FrameOk(w, w.stack[0]);
  }

  // ----- every step -----

  lemma ActionLive(w: World, a: Action)
    requires Shape(w) && CellsOk(w) && AllLive(w)
    ensures AllLive(DoAction(w, a))
  {
    hide DInv, StatusOf, StatusAt, Due, Firing, FireD, AddD, KeepsDue, OnlyDue, ListsWf, Attached, InFlight, AllLive, NewDfd;
    ActionShape(w, a);
    match a
    case MakeDeferred => GrowLive(w, a);
    case Settle(d, k, v) =>
      if d < |w.cells| && w.cells[d].origin == Public {
        FireEffect(w.cells[d].d, k, v);
        FireTraffic(w.cells[d].d, k, v);
        AllLiveApply(w, d, k, FireD(w.cells[d].d, k, v));
      }
    case Listen(d, k, n) =>
      if d < |w.cells| {
        AddEffect(w.cells[d].d, k, User(n));
        AddTraffic(w.cells[d].d, k, User(n));
        AllLiveApply(w, d, k, AddD(w.cells[d].d, k, User(n)));
      }
    case Then(d, fns) => if d < |w.cells| { GrowLive(w, a); }
    case WhenAll(args) => GrowLive(w, a);
  }

  /** Making new Deferreds. */
  lemma GrowLive(w: World, a: Action)
    requires Shape(w) && CellsOk(w) && AllLive(w) && !a.Settle? && !a.Listen?
    ensures AllLive(DoAction(w, a))
  {
    hide DInv, StatusOf, StatusAt, Due, Firing, ListsWf, Attached, InFlight, NewDfd;
    ActionShape(w, a);
    var u := DoAction(w, a);
    assert w.cells <= u.cells && KeepsFrames(w, u);
    forall t: nat | IsThen(u, t) ensures Live(u, t) {
      if t < |w.cells| {
        assert Live(w, t);
        LiveFrames(w, u, t);
      } else {
        NewThenLinked(w, u, t, a);
      }
    }
  }

  lemma NewThenLinked(w: World, u: World, t: nat, a: Action)
    requires CellsOk(w) && u == DoAction(w, a) && !a.Settle? && !a.Listen?
    requires IsThen(u, t) && t >= |w.cells|
    ensures Linked(u, Src(u, t), t)
  {
    hide StatusOf, Due, NewDfd, ListsWf;
    var f := u.stack[0];
    assert a.Then? && t == |w.cells| && f == Glue(ThenAdds(a.d, t, a.fns));
    assert f.acts[0] in f.acts && f.acts[1] in f.acts;
    assert Registers(f, a.d, t, Done) && Registers(f, a.d, t, Fail);
  }

  lemma ReturnLive(w: World, h: Option<Handling>, ret: Arg)
    requires ThenInv(w) && AllLive(w) && w.stack != [] && w.stack[0] == UserCode(h)
    ensures AllLive(DoReturn(w, h, ret))
  {
    hide DInv, StatusOf, StatusAt, Due, Attached, Answered, CellOk;
    var u := DoReturn(w, h, ret);
    if |w.stack| > 1 && ValidArg(w, ret) {
      if h.None? {
        DropIdle(w);
      } else {
        assert FrameOk(w, w.stack[0]);
        forall t: nat | IsThen(u, t) ensures Live(u, t) { AnswerLive(w, h.value, ret, t); }
      }
    }
  }

  lemma AnswerLive(w: World, h: Handling, ret: Arg, t: nat)
    requires w.stack != [] && |w.stack| > 1 && w.stack[0] == UserCode(Some(h)) && ValidArg(w, ret)
    requires HandlingOk(w, h) && Live(w, t)
    ensures Live(DoReturn(w, Some(h), ret), t)
  {
    hide StatusOf, Due, Attached;
    var u := DoReturn(w, Some(h), ret);
    var mid := w.(calls := w.calls + [HandlerCall(h, ret)]);
    assert Grows(w, u);
    if StatusAt(u, t).Waiting? {
      if InFlight(w, t) {
        AnswerInFlight(w, u, h, ret, t);
      } else if Linked(w, Src(w, t), t) {
        LinkedReturn(w, u, Src(w, t), t);
      } else {
        var p :| Adopts(w, t, p) && Linked(w, p, t);
        LinkedReturn(w, u, p, t);
        AdoptsGrows(w, u, t, p);
      }
    }
  }

  lemma LinkedReturn(w: World, u: World, p: nat, t: nat)
    requires w.stack != [] && w.stack[0].UserCode? && u.cells == w.cells
    requires forall f :: f in w.stack[1..] ==> f in u.stack
    requires Linked(w, p, t)
    ensures Linked(u, p, t)
  {
    hide StatusOf, Due, Carries;
    forall f, k | f in w.stack && Registers(f, p, t, k) ensures f in u.stack { TopOrBelow(w, f); }
  }

  lemma AnswerInFlight(w: World, u: World, h: Handling, ret: Arg, t: nat)
    requires w.stack != [] && |w.stack| > 1 && w.stack[0] == UserCode(Some(h)) && ValidArg(w, ret)
    requires HandlingOk(w, h) && InFlight(w, t) && u == DoReturn(w, Some(h), ret) && Grows(w, u)
    ensures InFlight(u, t) || exists p :: Adopts(u, t, p) && Linked(u, p, t)
  {
    hide StatusOf, Due;
    var f :| f in w.stack && WillSettle(f, t);
    TopOrBelow(w, f);
    if f in w.stack[1..] {
      assert f in u.stack;
    } else {
      var acts := AfterHandler(h, ret);
      assert u.stack[0] == Glue(acts);
      if ret.Plain? {
        assert acts[0] in acts;
        assert WillSettle(u.stack[0], t);
      } else {
        assert acts[0] in acts && acts[1] in acts;
        assert Registers(u.stack[0], ret.id, t, Done) && Registers(u.stack[0], ret.id, t, Fail);
        StatusInside(w, Src(w, t));
        assert Answered(u, t, h.kind, h.arg, ret);
        assert Adopts(u, t, ret.id);
      }
    }
  }

  lemma StepLive(w: World, c: Choice)
    requires Shape(w) && CellsOk(w) && ThenInv(w) && LinksInside(w) && AllLive(w)
    ensures AllLive(Step(w, c))
  {
    hide DInv, FireD, AddD, FinishedD, StatusOf, StatusAt, Firing, Due, KeepsDue, OnlyDue, ListsWf, Attached, InFlight, ThenInv;
    StepShape(w, c);
    var below := w.(stack := w.stack[1..]);
    match w.stack[0]
    case InCallback(d, k) =>
      PopShape(w);
      DropIdle(w);
      FinishedEffect(w.cells[d].d, k);
      FinishedTraffic(w.cells[d].d, k);
      ApplyShape(below, d, k, FinishedD(w.cells[d].d, k));
      AllLiveApply(below, d, k, FinishedD(w.cells[d].d, k));
    case Glue(acts) =>
      PopShape(w);
      if acts == [] {
        DropIdle(w);
      } else {
        var rest := Push(below, Glue(acts[1..]));
        PushShape(below, rest, -1, Done);
        assert Consumes(w, rest);
        LiveGlueAll(w, rest, acts[0]);
      }
    case UserCode(h) =>
      match c
      case Act(a) => ActionLive(w, a);
      case Return(ret) => ReturnLive(w, h, ret);
  }

  lemma LiveGlueAll(w: World, rest: World, a: Act)
    requires Shape(rest) && CellsOk(rest) && Consumes(w, rest) && AllLive(w) && LinksInside(w)
    requires w.stack[0].Glue? && w.stack[0].acts != [] && a == w.stack[0].acts[0]
    requires Glue(w.stack[0].acts[1..]) in rest.stack
    ensures AllLive(DoAct(rest, a))
  {
    hide Live, DInv, ListsWf, FireD, AddD, StatusOf, StatusAt, Firing;
    ActShape(rest, a);
    forall t: nat | IsThen(DoAct(rest, a), t) ensures Live(DoAct(rest, a), t) {
      ActMakesNothing(rest, a);
      LiveGlue(w, rest, a, t);
    }
  }

  lemma ActMakesNothing(w: World, a: Act)
    requires CellsOk(w)
    ensures |DoAct(w, a).cells| == |w.cells|
  {
    hide ListsWf, FireD, AddD;
  }
}
