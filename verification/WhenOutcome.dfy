/** What `when` answers, at rest, in every run. */
module WhenOutcome {
  import opened Prelude
  import opened Observers
  import opened Deferred
  import opened DeferredRuns
  import opened DeferredEffects
  import opened Promises
  import opened PromiseShape
  import opened Then
  import opened ThenLive
  import opened ThenChains
  import opened Countdown
  import opened CountdownSteps

  /** The loop of call x is still to reach position i. */
  ghost predicate FrameVisits(f: Frame, x: nat, i: nat) {
    f.Glue? && exists a :: a in f.acts && a.GVisit? && a.w == x && a.i <= i
  }

  ghost predicate Visits(w: World, x: nat, i: nat) {
    exists f :: f in w.stack && FrameVisits(f, x, i)
  }

  /** The master of call x has been settled, or is about to be. */
  ghost predicate Decided(w: World, x: nat)
    requires x < |w.whens|
  {
    StatusAt(w, w.whens[x].master).Settled? || InFlight(w, w.whens[x].master)
  }

  /** A rejection at position i will reach the master. */
  ghost predicate HearsRejection(w: World, x: nat, i: nat) {
    x < |w.whens| && i < |w.whens[x].args| && w.whens[x].args[i].Promise? ==>
      || Decided(w, x)
      || Visits(w, x, i)
      || Attached(w, w.whens[x].args[i].id, w.whens[x].master, Fail)
  }

  /** A finished countdown will resolve the master. */
  ghost predicate HearsEnd(w: World, x: nat) {
    x < |w.whens| && w.whens[x].remaining == 0 ==> Decided(w, x) || Visits(w, x, |w.whens[x].args|)
  }

  ghost predicate WhenLive(w: World) {
    && (forall x: nat, i: nat :: HearsRejection(w, x, i))
    && (forall x: nat :: HearsEnd(w, x))
  }

  // ----- persistence through one step -----

  lemma StepAttached(w: World, c: Choice, p: nat, t: nat)
    requires Shape(w) && CellsOk(w) && p < |w.cells|
    requires Attached(w, p, t, Fail)
    ensures Attached(Step(w, c), p, t, Fail) || InFlight(Step(w, c), t)
  {
    hide DInv, StatusOf, StatusAt, Firing, Due, FireD, AddD, FinishedD, ListsWf, Attached, InFlight, KeepsDue, OnlyDue, DoAct, NewDfd, Apply;
    StepShape(w, c);
    var below := w.(stack := w.stack[1..]);
    match w.stack[0]
    case InCallback(d, k) =>
      PopShape(w);
      AttachedConsume(w, below, p, t, Fail);
      FinishedEffect(w.cells[d].d, k);
      FinishedTraffic(w.cells[d].d, k);
      AttachedApply(below, d, k, FinishedD(w.cells[d].d, k), p, t, Fail);
    case Glue(acts) =>
      PopShape(w);
      if acts == [] {
        AttachedConsume(w, below, p, t, Fail);
      } else {
        var rest := Push(below, Glue(acts[1..]));
        PushShape(below, rest, -1, Done);
        AttachedGlue(w, rest, acts[0], p, t, Fail);
      }
    case UserCode(h) =>
      match c
      case Act(a) => ActionAttached(w, a, p, t);
      case Return(ret) =>
        if |w.stack| > 1 && ValidArg(w, ret) {
          AttachedConsume(w, below, p, t, Fail);
          AttachedFrames(below, Step(w, c), p, t, Fail) by { CallsGrow(below, Step(w, c)); }
        }
  }

  lemma ActionAttached(w: World, a: Action, p: nat, t: nat)
    requires Shape(w) && CellsOk(w) && p < |w.cells| && Attached(w, p, t, Fail)
    ensures Attached(DoAction(w, a), p, t, Fail) || InFlight(DoAction(w, a), t)
  {
    hide DInv, StatusOf, StatusAt, Firing, Due, FireD, AddD, ListsWf, Attached, InFlight, KeepsDue, OnlyDue, NewDfd;
    ActionShape(w, a);
    match a
    case Settle(d, k, v) =>
      if d < |w.cells| && w.cells[d].origin == Public {
        FireEffect(w.cells[d].d, k, v);
        FireTraffic(w.cells[d].d, k, v);
        AttachedApply(w, d, k, FireD(w.cells[d].d, k, v), p, t, Fail);
      }
    case Listen(d, k, n) =>
      if d < |w.cells| {
        AddEffect(w.cells[d].d, k, User(n));
        AddTraffic(w.cells[d].d, k, User(n));
        AttachedApply(w, d, k, AddD(w.cells[d].d, k, User(n)), p, t, Fail);
      }
    case _ => AttachedFrames(w, DoAction(w, a), p, t, Fail);
  }

  /** A settlement under way reaches its target. Client code never stands in for one, since t is not made by `then`. */
  lemma StepInFlight(w: World, c: Choice, t: nat)
    requires Shape(w) && CellsOk(w) && ThenInv(w) && t < |w.cells| && !IsThen(w, t)
    requires InFlight(w, t)
    ensures InFlight(Step(w, c), t) || StatusAt(Step(w, c), t).Settled?
  {
    hide DInv, StatusOf, StatusAt, Firing, Due, FireD, AddD, FinishedD, ListsWf, InFlight, DoAct, NewDfd, CellOk;
    assert FrameOk(w, w.stack[0]);
    var below := w.(stack := w.stack[1..]);
    var u := Step(w, c);
    match w.stack[0]
    case InCallback(d, k) =>
      InFlightConsume(w, below, t);
      ApplyFrames(below, d, k, FinishedD(w.cells[d].d, k));
      InFlightKept(below, u, t);
    case Glue(acts) =>
      PopShape(w);
      if acts == [] {
        InFlightConsume(w, below, t);
      } else {
        var rest := Push(below, Glue(acts[1..]));
        PushShape(below, rest, -1, Done);
        InFlightGlue(w, rest, acts[0], t);
      }
    case UserCode(h) =>
      match c
      case Act(a) => ActionKeepsFrames(w, a); InFlightKept(w, u, t);
      case Return(ret) =>
        if |w.stack| > 1 && ValidArg(w, ret) {
          InFlightConsume(w, below, t);
          InFlightKept(below, u, t);
        }
  }

  lemma InFlightKept(w: World, u: World, t: nat)
    requires InFlight(w, t) && KeepsFrames(w, u)
    ensures InFlight(u, t)
  {
  }

  lemma ActionKeepsFrames(w: World, a: Action)
    requires CellsOk(w)
    ensures KeepsFrames(w, DoAction(w, a))
  {
    hide ListsWf, FireD, AddD, NewDfd;
  }

  /** The loop of call x is just reaching a position no later than i. */
  ghost predicate AtVisit(w: World, x: nat, i: nat) {
    w.stack != [] && w.stack[0].Glue? && w.stack[0].acts != [] && w.stack[0].acts[0].GVisit?
    && w.stack[0].acts[0].w == x && w.stack[0].acts[0].i <= i
  }

  /** A pending visit stays pending until the loop gets there. */
  lemma StepVisits(w: World, c: Choice, x: nat, i: nat)
    requires Shape(w) && CellsOk(w) && Visits(w, x, i)
    ensures Visits(Step(w, c), x, i) || AtVisit(w, x, i)
  {
    hide DInv, StatusOf, Firing, FireD, AddD, FinishedD, ListsWf, NewDfd;
    var f :| f in w.stack && FrameVisits(f, x, i);
    var u := Step(w, c);
    TopOrBelow(w, f);
    StepKeepsBelow(w, c);
    if f in w.stack[1..] {
      assert f in u.stack;
    } else {
      var acts := w.stack[0].acts;
      var a :| a in acts && a.GVisit? && a.w == x && a.i <= i;
      if a != acts[0] {
        assert a in acts[1..];
        assert FrameVisits(Glue(acts[1..]), x, i);
      }
    }
  }

  lemma StepKeepsBelow(w: World, c: Choice)
    requires Shape(w) && CellsOk(w)
    ensures forall f :: f in w.stack[1..] ==> f in Step(w, c).stack
    ensures w.stack[0].Glue? && w.stack[0].acts != [] ==> Glue(w.stack[0].acts[1..]) in Step(w, c).stack
  {
    hide DInv, StatusOf, Firing, FireD, AddD, FinishedD, ListsWf, NewDfd;
    if w.stack[0].Glue? && w.stack[0].acts != [] {
      var rest := Push(w.(stack := w.stack[1..]), Glue(w.stack[0].acts[1..]));
      ActKeepsFrames(rest, w.stack[0].acts[0]);
    }
  }

  // ----- every step keeps the master informed -----

  /** The loop reaches position j: either i is still ahead, or its listeners are about to be registered. */
  lemma VisitHears(w: World, c: Choice, x: nat, i: nat)
    requires CellsOk(w) && AtVisit(w, x, i) && x < |w.whens| && i < |w.whens[x].args|
    requires w.whens[x].args[i].Promise?
    ensures Visits(Step(w, c), x, i) || Attached(Step(w, c), w.whens[x].args[i].id, w.whens[x].master, Fail)
  {
    hide StatusOf, Due, ListsWf;
    var u := Step(w, c);
    var j := w.stack[0].acts[0].i;
    var rec := w.whens[x];
    var f := u.stack[0];
    if rec.args[j].Promise? {
      assert f.Glue? && f.acts[1] == GAdd(rec.args[j].id, Fail, Forward(rec.master, Fail)) && f.acts[3] == GVisit(x, j + 1);
      assert f.acts[1] in f.acts && f.acts[3] in f.acts;
      if j == i { assert Registers(f, rec.args[i].id, rec.master, Fail); } else { assert FrameVisits(f, x, i); }
    } else {
      assert f == Glue([GVisit(x, j + 1)]);
      assert f.acts[0] in f.acts;
      assert FrameVisits(f, x, i);
    }
  }

  lemma VisitEnds(w: World, c: Choice, x: nat)
    requires CellsOk(w) && x < |w.whens| && AtVisit(w, x, |w.whens[x].args|)
    ensures var u := Step(w, c);
      && |u.whens| == |w.whens|
      && (u.whens[x].remaining == 0 ==> Decided(u, x) || Visits(u, x, |w.whens[x].args|))
  {
    hide StatusOf, Due, ListsWf, StatusAt;
    var u := Step(w, c);
    var j := w.stack[0].acts[0].i;
    var rec := w.whens[x];
    if j < |rec.args| {
      var f := u.stack[0];
      assert f.Glue?;
      if rec.args[j].Promise? { assert f.acts[3] in f.acts; } else { assert f.acts[0] in f.acts; }
      assert FrameVisits(f, x, |rec.args|);
    } else if rec.remaining == 0 {
      var f := u.stack[0];
      assert f == Glue([GFire(rec.master, Done, Values(rec.values))]);
      assert f.acts[0] in f.acts;
      assert WillSettle(f, rec.master);
    }
  }

  lemma DecidedStays(w: World, c: Choice, x: nat)
    requires Shape(w) && CellsOk(w) && ThenInv(w) && RecordOk(w, x) && x < |w.whens| && Decided(w, x)
    ensures x < |Step(w, c).whens| && Decided(Step(w, c), x)
  {
    hide DInv, StatusOf, StatusAt, Step, InFlight, ListsWf, CellOk;
    StepShape(w, c);
    var m := w.whens[x].master;
    if InFlight(w, m) { StepInFlight(w, c, m); }
  }

  lemma OldHears(w: World, c: Choice, x: nat, i: nat)
    requires Shape(w) && CellsOk(w) && ThenInv(w) && RecordOk(w, x) && x < |w.whens|
    requires HearsRejection(w, x, i)
    ensures HearsRejection(Step(w, c), x, i)
  {
    hide DInv, StatusOf, StatusAt, Step, InFlight, ListsWf, ThenInv, Attached, Visits, CellsOk, Shape;
    StepShape(w, c);
    var u := Step(w, c);
    if i < |w.whens[x].args| && w.whens[x].args[i].Promise? {
      assert u.whens[x].args == w.whens[x].args && u.whens[x].master == w.whens[x].master by { hide RecordOk; }
      if Decided(w, x) {
        DecidedStays(w, c, x);
      } else if Visits(w, x, i) {
        StepVisits(w, c, x, i);
        if !Visits(u, x, i) { VisitHears(w, c, x, i); }
      } else {
        assert Counted(w, w.whens[x], i);
        StepAttached(w, c, w.whens[x].args[i].id, w.whens[x].master);
      }
    }
  }

  lemma OldEnds(w: World, c: Choice, x: nat)
    requires Shape(w) && CellsOk(w) && ThenInv(w) && RecordOk(w, x) && x < |w.whens|
    requires HearsEnd(w, x)
    ensures HearsEnd(Step(w, c), x)
  {
    hide DInv, StatusOf, StatusAt, Step, InFlight, ListsWf, ThenInv, Visits, CellsOk, Shape;
    StepShape(w, c);
    var u := Step(w, c);
    var n := |w.whens[x].args|;
    assert u.whens[x].args == w.whens[x].args && u.whens[x].master == w.whens[x].master by { hide RecordOk; }
    if u.whens[x].remaining == 0 {
      if AtVisit(w, x, n) {
        VisitEnds(w, c, x);
      } else if w.whens[x].remaining == 0 {
        if Decided(w, x) { DecidedStays(w, c, x); } else { StepVisits(w, c, x, n); }
      } else {
        LastCollected(w, c, x);
      }
    }
  }

  lemma EnterLast(w: World, o: Observer, v: Val, x: nat)
    requires x < |w.whens| && w.whens[x].remaining != 0 && Enter(w, o, v).whens[x].remaining == 0
    ensures Decided(Enter(w, o, v), x)
  {
    hide StatusAt;
    var u := Enter(w, o, v);
    assert u.stack[0] == Glue([GFire(u.whens[x].master, Done, Values(u.whens[x].values))]);
    assert u.stack[0].acts[0] in u.stack[0].acts;
    assert WillSettle(u.stack[0], u.whens[x].master);
  }

  lemma ApplyLast(w: World, d: nat, k: Kind, r: (Dfd, Option<Observer>), x: nat)
    requires d < |w.cells| && x < |w.whens|
    requires w.whens[x].remaining != 0 && |Apply(w, d, k, r).whens| == |w.whens| && Apply(w, d, k, r).whens[x].remaining == 0
    ensures Decided(Apply(w, d, k, r), x)
  {
    hide Decided, Argument, Enter;
    ApplySplits(w, d, k, r);
    if r.1.Some? { EnterLast(Suspended(w, d, k, r), r.1.value, Argument(r.0, k), x); }
  }

  /** Outside its own loop, a countdown reaches zero only by collecting the last value, which resolves the master. */
  lemma LastCollected(w: World, c: Choice, x: nat)
    requires Shape(w) && CellsOk(w) && x < |w.whens| && !AtVisit(w, x, |w.whens[x].args|)
    requires |w.whens| <= |Step(w, c).whens|
    requires w.whens[x].remaining != 0 && Step(w, c).whens[x].remaining == 0
    ensures Decided(Step(w, c), x)
  {
    hide DInv, StatusOf, StatusAt, Firing, FireD, AddD, FinishedD, ListsWf, NewDfd, Decided, Apply, Shape;
    var below := w.(stack := w.stack[1..]);
    match w.stack[0]
    case InCallback(d, k) =>
      if d < |w.cells| {
        SameWhens(below, d, k, FinishedD(w.cells[d].d, k));
        ApplyLast(below, d, k, FinishedD(w.cells[d].d, k), x);
      }
    case Glue(acts) =>
      if acts != [] {
        var rest := Push(below, Glue(acts[1..]));
        match acts[0]
        case GFire(t, k, v) =>
          if t < |w.cells| {
            SameWhens(rest, t, k, FireD(w.cells[t].d, k, v));
            ApplyLast(rest, t, k, FireD(w.cells[t].d, k, v), x);
          }
        case GAdd(d, k, o) =>
          if d < |w.cells| {
            SameWhens(rest, d, k, AddD(w.cells[d].d, k, o));
            ApplyLast(rest, d, k, AddD(w.cells[d].d, k, o), x);
          }
        case GVisit(y, j) =>
      }
    case UserCode(h) =>
      match c
      case Return(_) =>
      case Act(a) =>
        match a
        case Settle(d, k, v) =>
          if d < |w.cells| && w.cells[d].origin == Public {
            SameWhens(w, d, k, FireD(w.cells[d].d, k, v));
            ApplyLast(w, d, k, FireD(w.cells[d].d, k, v), x);
          }
        case Listen(d, k, n) =>
          if d < |w.cells| {
            SameWhens(w, d, k, AddD(w.cells[d].d, k, User(n)));
            ApplyLast(w, d, k, AddD(w.cells[d].d, k, User(n)), x);
          }
        case _ =>
  }

  lemma SameWhens(w: World, d: nat, k: Kind, r: (Dfd, Option<Observer>))
    requires d < |w.cells|
    ensures |Apply(w, d, k, r).whens| == |w.whens|
  {
    hide Argument;
  }

  /** A call of `when` that this very step made. */
  lemma NewHears(w: World, c: Choice, x: nat)
    requires Shape(w) && CellsOk(w) && |w.whens| <= x < |Step(w, c).whens|
    ensures forall i: nat :: HearsRejection(Step(w, c), x, i)
    ensures HearsEnd(Step(w, c), x)
  {
    hide DInv, StatusOf, StatusAt, Firing, FireD, AddD, FinishedD, ListsWf, NewDfd, Attached;
    var u := Step(w, c);
    StepWhens(w, c);
    var args := c.action.args;
    assert x == |w.whens| && u == StartWhen(w, args);
    var f := u.stack[0];
    assert f.acts[0] in f.acts;
    if |args| > 1 {
      assert f == Glue([GVisit(x, 0)]);
      forall i: nat ensures Visits(u, x, i) { assert FrameVisits(f, x, i); }
    } else {
      assert WillSettle(f, u.whens[x].master);
      assert InFlight(u, u.whens[x].master);
    }
  }

  /** Only a call of `when` makes a new record. */
  lemma StepWhens(w: World, c: Choice)
    requires CellsOk(w) && |Step(w, c).whens| > |w.whens|
    ensures w.stack != [] && w.stack[0].UserCode? && c.Act? && c.action.WhenAll?
    ensures Step(w, c) == StartWhen(w, c.action.args)
    ensures !(|c.action.args| == 1 && c.action.args[0].Promise?) && |Step(w, c).whens| == |w.whens| + 1
  {
    hide FireD, AddD, FinishedD, ListsWf, NewDfd, Argument;
  }

  lemma StepWhenLive(w: World, c: Choice)
    requires Shape(w) && CellsOk(w) && ThenInv(w) && WhenInv(w) && WhenLive(w)
    ensures WhenLive(Step(w, c))
  {
    hide Step, Shape, CellsOk, ThenInv, HearsRejection, HearsEnd;
    StepShape(w, c);
    var u := Step(w, c);
    forall x: nat, i: nat ensures HearsRejection(u, x, i) {
      if x < |w.whens| { InvRecord(w, x); OldHears(w, c, x, i); }
      else if x < |u.whens| { NewHears(w, c, x); }
      else { hide *; NothingHeard(u, x, i); }
    }
    forall x: nat ensures HearsEnd(u, x) {
      if x < |w.whens| { InvRecord(w, x); OldEnds(w, c, x); }
      else if x < |u.whens| { NewHears(w, c, x); }
      else { NothingHeard(u, x, 0); }
    }
  }

  lemma NothingHeard(w: World, x: nat, i: nat)
    requires x >= |w.whens|
    ensures HearsRejection(w, x, i) && HearsEnd(w, x)
  {
  }

  // ----- whole runs -----

  ghost predicate AllGood(w: World) {
    Shape(w) && CellsOk(w) && ThenInv(w) && WhenInv(w) && AllTokens(w) && WhenLive(w)
  }

  lemma StartAllGood()
    ensures AllGood(START)
  {
    forall x: nat, i: nat ensures TokenOk(START, x, i, Transit(Progress, None, x, i)) { BeyondArgs(START, x, i); }
  }

  lemma {:induction false} RunAllGood(w: World, choices: seq<Choice>)
    requires AllGood(w)
    ensures AllGood(Run(w, choices)) && Grows(w, Run(w, choices))
    decreases |choices|
  {
    hide Shape, ThenInv, WhenInv, AllTokens, WhenLive, StatusAt, Step;
    if choices != [] {
      StepCellsOk(w, choices[0]);
      StepShape(w, choices[0]);
      StepThen(w, choices[0]);
      StepWhen(w, choices[0]);
      StepWhenLive(w, choices[0]);
      RunAllGood(Step(w, choices[0]), choices[1..]);
      GrowsTransitive(w, Step(w, choices[0]), Run(w, choices));
    }
  }

  /** Position i of call x has not been counted down: not yet visited, or its promise has not reported success. */
  ghost predicate Outstanding(w: World, a: Arg) {
    a.Promise? && !(StatusAt(w, a.id).Settled? && StatusAt(w, a.id).kind == Done)
  }

  /** At rest exactly the positions of pending and rejected promises are open. */
  lemma OpenAtRest(w: World, x: nat, i: nat)
    requires Shape(w) && WhenInv(w) && AllTokens(w) && Quiescent(w)
    requires x < |w.whens| && i < |w.whens[x].args|
    ensures i in w.whens[x].open <==> Outstanding(w, w.whens[x].args[i])
  {
    TokenAt(w, x, i);
    InvRecord(w, x);
    var c := w.whens[x];
    assert Counted(w, c, i);
    assert StackWeight(w.stack, x, i) == 0 by { assert w.stack[1..] == []; }
    hide StatusOf, WhenInv, Shape;
    if c.args[i].Promise? {
      var p := c.args[i].id;
      if StatusAt(w, p).Settled? && StatusAt(w, p).kind == Done { SettledNothingDue(w, p); }
    }
  }

  lemma SettledNothingDue(w: World, p: nat)
    requires Shape(w) && Quiescent(w) && p < |w.cells| && StatusAt(w, p).Settled?
    ensures Due(w.cells[p].d, Done) == []
  {
    QuiescentIdle(w, p, Done);
    NothingDue(w.cells[p].d, Done);
  }

  /** At rest a rejected argument has rejected the master, unless it was settled before. */
  lemma RejectionHeard(w: World, x: nat, i: nat)
    requires Shape(w) && WhenInv(w) && WhenLive(w) && Quiescent(w)
    requires x < |w.whens| && i < |w.whens[x].args| && Lost(w, w.whens[x].args[i])
    ensures StatusAt(w, w.whens[x].master).Settled?
  {
    assert HearsRejection(w, x, i);
    hide StatusOf, WhenInv, Shape, WhenLive;
    var p := w.whens[x].args[i].id;
    if Attached(w, p, w.whens[x].master, Fail) { AttachedAtRest(w, p, w.whens[x].master, Fail); }
  }

  lemma EndHeard(w: World, x: nat)
    requires WhenLive(w) && Quiescent(w) && x < |w.whens| && w.whens[x].remaining == 0
    ensures StatusAt(w, w.whens[x].master).Settled?
  {
    assert HearsEnd(w, x);
  }

  /** What `when` should answer: all values once every promise is resolved, a rejection once one is rejected. */
  ghost predicate WhenAnswer(w: World, args: seq<Arg>, answer: Status) {
    if exists a :: a in args && Lost(w, a) then
      answer.Settled? && answer.kind == Fail && exists a :: a in args && RejectedWith(w, a, answer.value)
    else if exists a :: a in args && Outstanding(w, a) then
      answer.Waiting?
    else
      && answer.Settled? && answer.kind == Done
      && answer.value.Values? && |answer.value.vs| == |args|
      && forall i :: 0 <= i < |args| ==>
        match args[i]
        case Plain(v) => answer.value.vs[i] == v
        case Promise(p) => StatusAt(w, p) == Settled(Done, answer.value.vs[i])
  }

  lemma AnswerAtRest(w: World, x: nat)
    requires AllGood(w) && Quiescent(w) && x < |w.whens|
    ensures WhenAnswer(w, w.whens[x].args, StatusAt(w, w.whens[x].master))
    ensures w.whens[x].remaining == |w.whens[x].open|
    ensures forall i: nat :: i < |w.whens[x].args| ==> (i in w.whens[x].open <==> Outstanding(w, w.whens[x].args[i]))
  {
    InvRecord(w, x);
    var c := w.whens[x];
    var m := c.master;
    assert WCellOk(w, m);
    forall i: nat | i < |c.args| ensures i in c.open <==> Outstanding(w, c.args[i]) { OpenAtRest(w, x, i); }
    hide StatusOf, Shape, CellsOk, ThenInv, WhenInv, AllTokens, WhenLive, StatusAt;
    if exists a :: a in c.args && Lost(w, a) {
      var a :| a in c.args && Lost(w, a);
      var i :| 0 <= i < |c.args| && c.args[i] == a;
      RejectionHeard(w, x, i);
      if StatusAt(w, m).kind == Done { ResolvedMeans(w, x, i, StatusAt(w, m).value); }
    } else if exists a :: a in c.args && Outstanding(w, a) {
      var a :| a in c.args && Outstanding(w, a);
      var i :| 0 <= i < |c.args| && c.args[i] == a;
      if StatusAt(w, m).Settled? {
        if StatusAt(w, m).kind == Done { ResolvedMeans(w, x, i, StatusAt(w, m).value); }
      }
    } else {
      assert c.open == {};
      EndHeard(w, x);
    }
  }

  lemma ResolvedMeans(w: World, x: nat, i: nat, v: Val)
    requires AllResolved(w, x, v) && i < |w.whens[x].args|
    ensures !Lost(w, w.whens[x].args[i]) && !Outstanding(w, w.whens[x].args[i])
  {
    hide StatusAt;
    assert v.vs[i] == v.vs[i];
  }

  /**
   Every call of `when` with no argument, one plain value, or several arguments,
   in any run of any client that has come to rest: the master is resolved with
   all values in position iff every promise resolved; rejected with one of the
   rejections iff some promise was rejected; pending otherwise. The countdown
   stands at the number of positions whose promise is pending or rejected.
   */
  lemma WhenAtRest(choices: seq<Choice>, x: nat)
    requires var w := Run(START, choices); Quiescent(w) && x < |w.whens|
    ensures var w := Run(START, choices);
      && WhenAnswer(w, w.whens[x].args, StatusAt(w, w.whens[x].master))
      && w.whens[x].remaining == |w.whens[x].open|
      && forall i: nat :: i < |w.whens[x].args| ==> (i in w.whens[x].open <==> Outstanding(w, w.whens[x].args[i]))
  {
    StartAllGood();
    RunAllGood(START, choices);
    AnswerAtRest(Run(START, choices), x);
  }

  /** If at some rest only one promise is rejected, the master keeps that rejection for good: the first one wins. */
  lemma FirstRejectionWins(before: seq<Choice>, after: seq<Choice>, x: nat, p: nat, v: Val)
    requires var w := Run(START, before);
      && Quiescent(w) && x < |w.whens| && Promise(p) in w.whens[x].args
      && StatusAt(w, p) == Settled(Fail, v)
      && (forall a :: a in w.whens[x].args && Lost(w, a) ==> a == Promise(p))
    ensures CellsOk(Run(START, before))
    ensures var w, u := Run(START, before), Run(Run(START, before), after);
      StatusAt(u, w.whens[x].master) == Settled(Fail, v)
  {
    StartAllGood();
    RunAllGood(START, before);
    var w := Run(START, before);
    AnswerAtRest(w, x);
    RunAllGood(w, after);
    hide StatusOf, AllGood;
    assert Lost(w, Promise(p));
    var answer := StatusAt(w, w.whens[x].master);
    var a :| a in w.whens[x].args && RejectedWith(w, a, answer.value);
    assert Lost(w, a);
    StatusInside(w, w.whens[x].master);
  }
}
