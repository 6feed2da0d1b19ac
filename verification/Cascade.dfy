/**
 The cascade of one rejection: while client code only returns, library code passes
 the same rejection on until the stack is back where it was.
 */
module Cascade {
  import opened Prelude
  import opened Observers
  import opened Deferred
  import opened DeferredRuns
  import opened DeferredEffects
  import opened Promises
  import opened PromiseShape
  import opened Then
  import opened Countdown
  import opened WhenOutcome
  import opened WhenOrder

  // ----- what is on the stack -----

  /** The frame belongs to the cascade of a rejection with v. */
  predicate Rolls(w: World, f: Frame, v: Val) {
    match f
    case InCallback(d, k) => k == Fail && d < |w.cells| && StatusAt(w, d) == Settled(Fail, v)
    case Glue(acts) => acts == [] || (|acts| == 1 && acts[0].GFire? && acts[0].kind == Fail && acts[0].arg == v)
    case UserCode(h) => h.Some? ==> h.value.kind == Fail
  }

  /** Above base there is nothing but the cascade. */
  ghost predicate Rolling(w: World, base: seq<Frame>, above: seq<Frame>, v: Val) {
    w.stack == above + base && forall j :: 0 <= j < |above| ==> Rolls(w, above[j], v)
  }

  /** Only rejections with v happen. */
  ghost predicate OnlyRejects(w: World, u: World, v: Val) {
    |u.cells| == |w.cells| && forall i: nat :: i < |w.cells| && StatusAt(u, i) != StatusAt(w, i) ==>
      StatusAt(w, i).Waiting? && StatusAt(u, i) == Settled(Fail, v)
  }

  lemma RollsOn(w: World, u: World, f: Frame, v: Val)
    requires Rolls(w, f, v) && OnlyRejects(w, u, v)
    ensures Rolls(u, f, v)
  {
    hide StatusOf;
    if f.InCallback? { StatusInside(w, f.d); }
  }

  lemma RollingOn(w: World, u: World, base: seq<Frame>, above: seq<Frame>, now: seq<Frame>, v: Val)
    requires Rolling(w, base, above, v) && OnlyRejects(w, u, v) && u.stack == now + above + base
    requires forall j :: 0 <= j < |now| ==> Rolls(u, now[j], v)
    ensures Rolling(u, base, now + above, v)
  {
    forall j | 0 <= j < |now + above| ensures Rolls(u, (now + above)[j], v) {
      if j >= |now| { RollsOn(w, u, above[j - |now|], v); }
    }
  }

  // ----- how much of it is left -----

  /** Fail observers due anywhere. */
  function TotalDue(cells: seq<Cell>): nat {
    if cells == [] then 0 else |Due(cells[0].d, Fail)| + TotalDue(cells[1..])
  }

  lemma {:induction false} TotalUpdated(cells: seq<Cell>, d: nat, c: Cell)
    requires d < |cells|
    ensures TotalDue(cells[d := c]) == TotalDue(cells) - |Due(cells[d].d, Fail)| + |Due(c.d, Fail)|
  {
    hide Due;
    if d == 0 {
      assert cells[d := c][1..] == cells[1..];
    } else {
      assert cells[d := c][1..] == cells[1..][d - 1 := c];
      TotalUpdated(cells[1..], d - 1, c);
    }
  }

  function Work(f: Frame): nat {
    match f case InCallback(_, _) => 1 case Glue(acts) => 1 + |acts| case UserCode(_) => 3
  }

  function TotalWork(frames: seq<Frame>): nat {
    if frames == [] then 0 else Work(frames[0]) + TotalWork(frames[1..])
  }

  // ----- handing out one due fail observer -----

  /** r takes the first due fail observer of d, whose outcome is v, and calls it; or finds none. */
  ghost predicate HandsOut(d: Dfd, r: (Dfd, Option<Observer>), v: Val) {
    && (StatusOf(d).Waiting? || StatusOf(d) == Settled(Fail, v)) && StatusOf(r.0) == Settled(Fail, v)
    && Pops(d, Fail, r) && (r.1.Some? ==> Argument(r.0, Fail) == v)
  }

  lemma FireHandsOut(d: Dfd, v: Val)
    requires DInv(d) && StatusOf(d).Waiting?
    ensures HandsOut(d, FireD(d, Fail, v), v)
  {
    FireEffect(d, Fail, v);
    SettleDue(d, Fail, v);
  }

  lemma FinishHandsOut(d: Dfd, v: Val)
    requires DInv(d) && Firing(d, Fail) && StatusOf(d) == Settled(Fail, v)
    ensures HandsOut(d, FinishedD(d, Fail), v)
  {
    FinishedEffect(d, Fail);
    FinishedDue(d, Fail);
  }

  /** What a fail observer that is called puts on the stack. */
  function Entered(o: Observer, v: Val): Frame {
    match o
    case Forward(t, k) => Glue([GFire(t, k, v)])
    case Handle(t, k, fn) => UserCode(Some(Handling(t, k, fn, v)))
    case _ => UserCode(None)
  }

  lemma EnterFail(w: World, d: nat, o: Observer, v: Val)
    requires WObsOk(w, d, Fail, o)
    ensures Enter(w, o, v) == Push(w, Entered(o, v)) && (forall u :: Rolls(u, Entered(o, v), v))
  {
  }

  /** The new frames: the suspended list and what it called. */
  function Handed(d: nat, due: seq<Observer>, v: Val): seq<Frame> {
    if due == [] then [] else [Entered(due[0], v), InCallback(d, Fail)]
  }

  lemma HandOut(w: World, d: nat, r: (Dfd, Option<Observer>), v: Val)
    requires d < |w.cells| && WCellOk(w, d) && HandsOut(w.cells[d].d, r, v)
    ensures var u := Apply(w, d, Fail, r); var due := Due(w.cells[d].d, Fail);
      && u == w.(cells := w.cells[d := w.cells[d].(d := r.0)], stack := Handed(d, due, v) + w.stack)
      && OnlyRejects(w, u, v) && StatusAt(u, d) == Settled(Fail, v)
      && Due(u.cells[d].d, Fail) == (if due == [] then [] else due[1..])
      && (forall j :: 0 <= j < |Handed(d, due, v)| ==> Rolls(u, Handed(d, due, v)[j], v))
      && TotalDue(u.cells) == TotalDue(w.cells) - (if due == [] then 0 else 1)
  {
    hide StatusOf, Due, Argument;
    var due := Due(w.cells[d].d, Fail);
    var c := w.cells[d].(d := r.0);
    TotalUpdated(w.cells, d, c);
    var w1 := w.(cells := w.cells[d := c]);
    if due != [] {
      assert due[0] in Due(w.cells[d].d, Fail);
      EnterFail(Push(w1, InCallback(d, Fail)), d, due[0], v) by { hide TotalDue; }
      assert [Entered(due[0], v)] + ([InCallback(d, Fail)] + w.stack) == Handed(d, due, v) + w.stack;
    }
  }

  // ----- one step of the cascade -----

  /** The Deferred whose fail list the frame makes go on, or start. */
  function Hit(w: World, f: Frame): Option<nat> {
    match f
    case InCallback(d, _) => if d < |w.cells| then Some(d) else None
    case Glue(acts) =>
      if acts != [] && acts[0].GFire? && acts[0].target < |w.cells| && StatusAt(w, acts[0].target).Waiting?
      then Some(acts[0].target) else None
    case UserCode(_) => None
  }

  function HandedBy(w: World, f: Frame, v: Val): seq<Frame> {
    var d := Hit(w, f);
    if d.Some? && d.value < |w.cells| then Handed(d.value, Due(w.cells[d.value].d, Fail), v) else []
  }

  /** What replaces the frame, client code returning v. */
  function After(w: World, f: Frame, v: Val): seq<Frame> {
    match f
    case InCallback(_, _) => HandedBy(w, f, v)
    case Glue(acts) => if acts == [] then [] else HandedBy(w, f, v) + [Glue([])]
    case UserCode(h) => if h.None? then [] else [Glue([GFire(h.value.target, Fail, v)])]
  }

  ghost predicate HitOnly(w: World, u: World, d: nat, v: Val) {
    && d < |w.cells| == |u.cells| && (forall i :: 0 <= i < |w.cells| && i != d ==> u.cells[i] == w.cells[i])
    && StatusAt(u, d) == Settled(Fail, v) && u.cells[d].origin == w.cells[d].origin
    && var due := Due(w.cells[d].d, Fail);
      && Due(u.cells[d].d, Fail) == (if due == [] then [] else due[1..])
      && TotalDue(u.cells) == TotalDue(w.cells) - (if due == [] then 0 else 1)
  }

  /** The step of frame f at the top, with `below` under it. */
  ghost predicate Rolled(w: World, u: World, f: Frame, below: seq<Frame>, v: Val) {
    && u.stack == After(w, f, v) + below && u.whens == w.whens
    && (if Hit(w, f).Some? then HitOnly(w, u, Hit(w, f).value, v) else u.cells == w.cells)
    && OnlyRejects(w, u, v)
    && forall j :: 0 <= j < |After(w, f, v)| ==> Rolls(u, After(w, f, v)[j], v)
  }

  /** The step has come down to handing out a due observer of d. */
  lemma RollHit(w: World, w1: World, d: nat, r: (Dfd, Option<Observer>), f: Frame, below: seq<Frame>, v: Val)
    requires d < |w.cells| && w1.cells == w.cells && w1.whens == w.whens && w1.calls == w.calls
    requires WCellOk(w, d) && HandsOut(w.cells[d].d, r, v)
    requires Hit(w, f) == Some(d) && After(w, f, v) + below == HandedBy(w, f, v) + w1.stack
    requires After(w, f, v) == HandedBy(w, f, v) || After(w, f, v) == HandedBy(w, f, v) + [Glue([])]
    ensures Rolled(w, Apply(w1, d, Fail, r), f, below, v)
  {
    hide StatusOf, Due, WCellOk, HandsOut, TotalDue, Hit;
    WCellBelow(w, w1, d);
    HandOut(w1, d, r, v);
    hide Apply, After, Entered;
  }

  lemma RollCallback(w: World, c: Choice, f: Frame, below: seq<Frame>, v: Val)
    requires Shape(w) && CellsOk(w) && WhenInv(w) && w.stack == [f] + below && Rolls(w, f, v) && f.InCallback?
    ensures Rolled(w, Step(w, c), f, below, v)
  {
    var d := f.d;
    assert w.stack[0] == f && w.stack[1..] == below;
    FinishHandsOut(w.cells[d].d, v);
    assert WCellOk(w, d);
    hide StatusOf, Due, DInv, Firing, ListsWf, FinishedD, WCellOk, HandsOut, TotalDue, Rolled;
    assert Step(w, c) == Apply(w.(stack := below), d, Fail, FinishedD(w.cells[d].d, Fail));
    RollHit(w, w.(stack := below), d, FinishedD(w.cells[d].d, Fail), f, below, v);
  }

  lemma WCellBelow(w: World, u: World, d: nat)
    requires d < |w.cells| && WCellOk(w, d) && u.cells == w.cells && u.whens == w.whens && u.calls == w.calls
    ensures WCellOk(u, d)
  {
    hide Due, StatusOf, Grows;
    assert Grows(w, u) by { SameGrows(w, u); }
    WCellGrows(w, u, d);
  }

  lemma SameGrows(w: World, u: World)
    requires u.cells == w.cells && u.whens == w.whens && u.calls == w.calls
    ensures Grows(w, u)
  {
  }

  lemma FireStep(w: World, c: Choice, f: Frame, below: seq<Frame>)
    requires CellsOk(w) && w.stack == [f] + below && f.Glue? && |f.acts| == 1 && f.acts[0].GFire?
    ensures Step(w, c) == DoAct(w.(stack := [Glue([])] + below), f.acts[0])
  {
    hide ListsWf, DoAct;
    assert w.stack[0] == f && w.stack[1..] == below && f.acts[1..] == [];
  }

  lemma RollFire(w: World, c: Choice, f: Frame, below: seq<Frame>, v: Val)
    requires Shape(w) && CellsOk(w) && WhenInv(w) && w.stack == [f] + below && Rolls(w, f, v) && f.Glue? && f.acts != []
    ensures Rolled(w, Step(w, c), f, below, v)
  {
    var t := f.acts[0].target;
    FireStep(w, c, f, below);
    var rest := w.(stack := [Glue([])] + below);
    if t < |w.cells| && StatusAt(w, t).Waiting? {
      FireHandsOut(w.cells[t].d, v);
      assert WCellOk(w, t);
      hide StatusOf, Due, DInv, Firing, ListsWf, FireD, WCellOk, HandsOut, TotalDue, Rolled, Step, HandedBy, Entered, Handed;
      assert HandedBy(w, f, v) + [Glue([])] + below == HandedBy(w, f, v) + rest.stack;
      RollHit(w, rest, t, FireD(w.cells[t].d, Fail, v), f, below, v);
    } else {
      RollDead(w, f, below, v);
    }
  }

  /** What is settled already is not settled again. */
  lemma RollDead(w: World, f: Frame, below: seq<Frame>, v: Val)
    requires Shape(w) && CellsOk(w) && Rolls(w, f, v) && f.Glue? && f.acts != [] && Hit(w, f).None?
    ensures Rolled(w, DoAct(w.(stack := [Glue([])] + below), f.acts[0]), f, below, v)
  {
    var t := f.acts[0].target;
    if t < |w.cells| {
      FireSettled(w.cells[t].d, Fail, v);
      assert w.cells[t := w.cells[t].(d := w.cells[t].d)] == w.cells;
    }
    hide StatusOf, Due, DInv, Firing, ListsWf, FireD, WCellOk, HandsOut, TotalDue, Step;
    var rest := w.(stack := [Glue([])] + below);
    assert DoAct(rest, f.acts[0]) == rest;
    assert After(w, f, v) == [Glue([])];
  }

  lemma RollReturn(w: World, f: Frame, below: seq<Frame>, v: Val)
    requires CellsOk(w) && w.stack == [f] + below && below != [] && Rolls(w, f, v) && f.UserCode?
    ensures var u := Step(w, Return(Plain(v))); Rolled(w, u, f, below, v)
  {
    hide StatusOf, Due, ListsWf;
    assert w.stack[0] == f && w.stack[1..] == below;
  }

  /** Any step at the top of the cascade; client code is made to return v. */
  lemma RollStep(w: World, c: Choice, f: Frame, below: seq<Frame>, v: Val)
    requires Shape(w) && CellsOk(w) && WhenInv(w) && w.stack == [f] + below && below != [] && Rolls(w, f, v)
    requires f.UserCode? ==> c == Return(Plain(v))
    ensures Rolled(w, Step(w, c), f, below, v)
  {
    hide Shape, CellsOk, WhenInv, Rolled, StatusAt;
    match f
    case InCallback(_, _) => RollCallback(w, c, f, below, v);
    case UserCode(_) => RollReturn(w, f, below, v);
    case Glue(acts) =>
      if acts != [] { RollFire(w, c, f, below, v); } else { RollNothing(w, c, f, below, v); }
  }

  lemma RollNothing(w: World, c: Choice, f: Frame, below: seq<Frame>, v: Val)
    requires CellsOk(w) && w.stack == [f] + below && f == Glue([])
    ensures Rolled(w, Step(w, c), f, below, v)
  {
    hide StatusOf, Due, ListsWf;
    assert w.stack[0] == f && w.stack[1..] == below;
  }

  lemma RolledOn(w: World, u: World, base: seq<Frame>, above: seq<Frame>, v: Val)
    requires Rolling(w, base, above, v) && above != [] && Rolled(w, u, above[0], above[1..] + base, v)
    ensures Rolling(u, base, After(w, above[0], v) + above[1..], v)
  {
    hide Due, StatusOf, After, Rolls;
    var below := w.(stack := above[1..] + base);
    var now := After(w, above[0], v);
    assert now + (above[1..] + base) == now + above[1..] + base;
    assert Rolling(below, base, above[1..], v) by { forall j | 0 <= j < |above[1..]| ensures Rolls(below, above[1..][j], v) { SameRolls(w, below, above[j + 1], v); } }
    RollingOn(below, u, base, above[1..], now, v);
  }

  lemma SameRolls(w: World, u: World, f: Frame, v: Val)
    requires Rolls(w, f, v) && u.cells == w.cells
    ensures Rolls(u, f, v)
  {
  }

  /** Less remains: fewer due observers, or as many and less work on the stack. */
  lemma RolledLess(w: World, u: World, above: seq<Frame>, below: seq<Frame>, v: Val)
    requires above != [] && Rolls(w, above[0], v) && Rolled(w, u, above[0], below, v)
    ensures TotalDue(u.cells) < TotalDue(w.cells)
         || (TotalDue(u.cells) == TotalDue(w.cells) && TotalWork(After(w, above[0], v) + above[1..]) < TotalWork(above))
  {
    hide Due, StatusOf, StatusAt, TotalDue;
    var now := After(w, above[0], v);
    if TotalDue(u.cells) == TotalDue(w.cells) {
      if now == [] { assert now + above[1..] == above[1..]; }
      else { assert now == [now[0]] && (now + above[1..])[1..] == above[1..]; }
    }
  }

  // ----- the cascade reaches whoever is due -----

  /** m is rejected with v, or a frame is about to do it, or it is due on the list of q, which is running. */
  ghost predicate Reaching(w: World, above: seq<Frame>, q: nat, m: nat, v: Val) {
    || StatusAt(w, m) == Settled(Fail, v)
    || (m < |w.cells| && StatusAt(w, m).Waiting?
        && (Glue([GFire(m, Fail, v)]) in above
            || (q < |w.cells| && StatusAt(w, q) == Settled(Fail, v) && Forward(m, Fail) in Due(w.cells[q].d, Fail))))
  }

  lemma RolledReaches(w: World, u: World, above: seq<Frame>, below: seq<Frame>, q: nat, m: nat, v: Val)
    requires above != [] && Rolls(w, above[0], v) && Rolled(w, u, above[0], below, v) && Reaching(w, above, q, m, v)
    ensures Reaching(u, After(w, above[0], v) + above[1..], q, m, v)
  {
    hide Due, StatusOf, TotalDue;
    var hit, now := Hit(w, above[0]), After(w, above[0], v);
    var f := Glue([GFire(m, Fail, v)]);
    if StatusAt(u, m) != Settled(Fail, v) {
      assert StatusAt(u, m).Waiting? && StatusAt(w, m).Waiting?;
      if f in above {
        assert f != above[0];
        InTail(above, f);
      } else {
        DueReaches(w, u, above[0], q, m, v);
      }
    }
  }

  lemma InTail(above: seq<Frame>, f: Frame)
    requires f in above && f != above[0]
    ensures f in above[1..]
  {
  }

  lemma DueReaches(w: World, u: World, f: Frame, q: nat, m: nat, v: Val)
    requires if Hit(w, f).Some? then HitOnly(w, u, Hit(w, f).value, v) else u.cells == w.cells
    requires q < |w.cells| && StatusAt(w, q) == Settled(Fail, v) && Forward(m, Fail) in Due(w.cells[q].d, Fail)
    ensures Glue([GFire(m, Fail, v)]) in After(w, f, v)
         || (q < |u.cells| && StatusAt(u, q) == Settled(Fail, v) && Forward(m, Fail) in Due(u.cells[q].d, Fail))
  {
    hide StatusOf, Due, TotalDue;
    if Hit(w, f) == Some(q) {
      var due := Due(w.cells[q].d, Fail);
      if due[0] == Forward(m, Fail) { assert HandedBy(w, f, v)[0] == Glue([GFire(m, Fail, v)]); }
      else { assert Forward(m, Fail) in due[1..]; }
    } else {
      assert u.cells[q] == w.cells[q];
    }
  }

  /** Client code that only returns lets the cascade run to its end, where m has been rejected. */
  lemma {:induction false} Unwind(w: World, base: seq<Frame>, above: seq<Frame>, q: nat, m: nat, v: Val) returns (choices: seq<Choice>)
    requires AllGood(w) && base != [] && Rolling(w, base, above, v) && Reaching(w, above, q, m, v) && InCallback(q, Fail) !in base
    ensures Run(w, choices).stack == base && StatusAt(Run(w, choices), m) == Settled(Fail, v)
    decreases TotalDue(w.cells), TotalWork(above)
  {
    if above == [] {
      choices := [];
      Unwound(w, base, q, m, v);
    } else {
      var c := Return(Plain(v));
      assert Shape(w) && CellsOk(w) && WhenInv(w) && Rolls(w, above[0], v);
      assert w.stack == [above[0]] + (above[1..] + base);
      StepAllGood(w, c);
      hide Shape, CellsOk, WhenInv, AllGood, Rolling, Reaching, Rolled, Rolls, After, StatusAt, Step, TotalDue, TotalWork;
      RollStep(w, c, above[0], above[1..] + base, v);
      RolledOn(w, Step(w, c), base, above, v);
      RolledLess(w, Step(w, c), above, above[1..] + base, v);
      RolledReaches(w, Step(w, c), above, above[1..] + base, q, m, v);
      var more := Unwind(Step(w, c), base, After(w, above[0], v) + above[1..], q, m, v);
      choices := [c] + more;
      assert choices[1..] == more;
    }
  }

  lemma Unwound(w: World, base: seq<Frame>, q: nat, m: nat, v: Val)
    requires Shape(w) && Rolling(w, base, [], v) && Reaching(w, [], q, m, v) && InCallback(q, Fail) !in base
    ensures w.stack == base && StatusAt(w, m) == Settled(Fail, v)
  {
    assert w.stack == base;
    if q < |w.cells| && StatusAt(w, q) == Settled(Fail, v) { NothingDue(w.cells[q].d, Fail); }
    hide DInv, StatusOf, Due, Firing;
  }

  /** As seen from outside. */
  lemma HandOutHits(w: World, d: nat, r: (Dfd, Option<Observer>), v: Val)
    requires d < |w.cells| && WCellOk(w, d) && HandsOut(w.cells[d].d, r, v)
    ensures var u := Apply(w, d, Fail, r);
      u.whens == w.whens && HitOnly(w, u, d, v) && Rolling(u, w.stack, Handed(d, Due(w.cells[d].d, Fail), v), v)
  {
    HandOut(w, d, r, v);
    hide Apply, WCellOk, HandsOut, StatusOf, Due, TotalDue, Handed, Rolls;
  }
}
