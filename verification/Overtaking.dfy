/**
 A later rejection overtakes: client code that gets control between the rejection of
 one promise and the call of the listener that `when` has on it can reject another
 promise, whose listener then reaches the master first.
 */
module Overtaking {
  import opened Prelude
  import opened Observers
  import opened Deferred
  import opened DeferredRuns
  import opened DeferredEffects
  import opened Promises
  import opened PromiseShape
  import opened Then
  import opened ThenLimits
  import opened Countdown
  import opened WhenOutcome
  import opened WhenOrder
  import opened Cascade

  /** p is rejected with v from where the stack is base; q is to follow; t, if given, is where User(n) listens. */
  datatype Plan = Plan(base: seq<Frame>, p: nat, q: nat, m: nat, v: Val, n: nat, t: Option<nat>)

  predicate IsPublic(w: World, d: nat) {
    d < |w.cells| && w.cells[d].origin == Public
  }

  predicate IsClient(o: Observer) {
    o.User? || o.Handle?
  }

  predicate IsResolved(w: World, d: nat) {
    StatusAt(w, d).Settled? && StatusAt(w, d).kind == Done
  }

  /** m is the master of a call of `when` on promises that client code settles or that are resolved. */
  ghost predicate MasterOfPublic(w: World, m: nat) {
    && IsWhen(w, m) && w.cells[m].origin.w < |w.whens|
    && forall a :: a in w.whens[w.cells[m].origin.w].args && a.Promise? ==> IsPublic(w, a.id) || IsResolved(w, a.id)
  }

  /** The frame belongs to Deferreds other than p, q and m. */
  predicate Aside(w: World, f: Frame, m: nat) {
    match f
    case InCallback(d, _) => !IsPublic(w, d)
    case Glue(acts) => acts != [] ==> acts[0].GFire? && acts[0].target != m && !IsPublic(w, acts[0].target)
    case UserCode(_) => true
  }

  ghost predicate Around(w: World, s: Plan) {
    && s.p != s.q && IsPublic(w, s.p) && IsPublic(w, s.q) && MasterOfPublic(w, s.m)
    && StatusAt(w, s.q).Waiting? && StatusAt(w, s.m).Waiting?
    && Forward(s.m, Fail) in Due(w.cells[s.q].d, Fail)
    && (s.t.Some? ==> !IsPublic(w, s.t.value) && InCallback(s.t.value, Fail) !in s.base)
  }

  ghost predicate Still(w: World, s: Plan) {
    Around(w, s) && StatusAt(w, s.p) == Settled(Fail, s.v)
  }

  /** The list of p is suspended right above base, and everything above it is aside. */
  ghost predicate Staged(w: World, s: Plan, above: seq<Frame>) {
    && Rolling(w, s.base, above, s.v) && above != [] && above[|above| - 1] == InCallback(s.p, Fail)
    && forall j :: 0 <= j < |above| - 1 ==> Aside(w, above[j], s.m)
  }

  /** a is due on p, before the listener of m; because of a, or of what is under way, client code will get control. */
  ghost predicate Ahead(w: World, s: Plan, above: seq<Frame>, a: seq<Observer>) {
    && s.p < |w.cells| && a <= Due(w.cells[s.p].d, Fail) && Forward(s.m, Fail) !in a
    && ((exists o :: o in a && IsClient(o)) || (s.t.Some? && AheadOn(w, s, above, a, s.t.value)))
  }

  ghost predicate AheadOn(w: World, s: Plan, above: seq<Frame>, a: seq<Observer>, t: nat) {
    && t < |w.cells| && User(s.n) in Due(w.cells[t].d, Fail)
    && (|| (StatusAt(w, t).Waiting? && (Forward(t, Fail) in a || Glue([GFire(t, Fail, s.v)]) in above))
        || StatusAt(w, t) == Settled(Fail, s.v))
  }

  ghost predicate OnTheWay(w: World, s: Plan, above: seq<Frame>, a: seq<Observer>) {
    Still(w, s) && Staged(w, s, above) && Ahead(w, s, above, a)
  }

  // ----- the list of p goes on -----

  /** Client code has not been reached, so something is still due on p. */
  lemma StillAhead(w: World, s: Plan, a: seq<Observer>)
    requires Shape(w) && OnTheWay(w, s, [InCallback(s.p, Fail)], a)
    ensures a != []
  {
    if s.t.Some? && AheadOn(w, s, [InCallback(s.p, Fail)], a, s.t.value) && StatusAt(w, s.t.value).Settled? {
      var t := s.t.value;
      assert w.stack == [InCallback(s.p, Fail)] + s.base;
      assert InCallback(t, Fail) !in w.stack;
      NothingDue(w.cells[t].d, Fail);
    }
    hide DInv, StatusOf, Due, Firing;
  }

  /** What a due fail observer of d does, if it is neither client code nor the listener of m. */
  lemma EntersAside(w: World, u: World, d: nat, o: Observer, m: nat, v: Val)
    requires WObsOk(w, d, Fail, o) && o != Forward(m, Fail) && u.cells == w.cells
    ensures Entered(o, v).UserCode? || Aside(u, Entered(o, v), m)
  {
  }

  /** From a Deferred that client code does not settle, the listener of m cannot be reached. */
  lemma NotOnAside(w: World, d: nat, o: Observer, m: nat)
    requires WObsOk(w, d, Fail, o) && MasterOfPublic(w, m) && !IsPublic(w, d) && !IsResolved(w, d)
    ensures o != Forward(m, Fail)
  {
  }

  /** Hitting d leaves all other Deferreds as they were. */
  lemma OthersSame(w: World, u: World, d: nat, v: Val, i: nat)
    requires HitOnly(w, u, d, v) && i != d && i < |w.cells|
    ensures u.cells[i] == w.cells[i] && StatusAt(u, i) == StatusAt(w, i)
  {
    hide StatusOf, Due, TotalDue;
  }

  lemma StillAfter(w: World, u: World, s: Plan, d: nat)
    requires Around(w, s) && (d != s.p ==> Still(w, s))
    requires HitOnly(w, u, d, s.v) && u.whens == w.whens && d != s.q && d != s.m && (IsPublic(w, d) || !IsResolved(w, d))
    ensures Still(u, s)
  {
    OthersSame(w, u, d, s.v, s.q);
    OthersSame(w, u, d, s.v, s.m);
    if d != s.p { OthersSame(w, u, d, s.v, s.p); }
    MasterAfter(w, u, s.m, d, s.v);
    hide StatusOf, Due, TotalDue, StatusAt, MasterOfPublic;
    SamePublic(w, u, d, s.v);
  }

  lemma MasterAfter(w: World, u: World, m: nat, d: nat, v: Val)
    requires MasterOfPublic(w, m) && HitOnly(w, u, d, v) && u.whens == w.whens && d != m && (IsPublic(w, d) || !IsResolved(w, d))
    ensures MasterOfPublic(u, m)
  {
    OthersSame(w, u, d, v, m);
    SamePublic(w, u, d, v);
    hide StatusOf, Due, TotalDue;
    forall a | a in u.whens[u.cells[m].origin.w].args && a.Promise? ensures IsPublic(u, a.id) || IsResolved(u, a.id) {
      if !IsPublic(w, a.id) { StatusInside(w, a.id); OthersSame(w, u, d, v, a.id); }
    }
  }

  lemma SamePublic(w: World, u: World, d: nat, v: Val)
    requires HitOnly(w, u, d, v)
    ensures forall i: nat :: IsPublic(u, i) == IsPublic(w, i)
  {
    hide StatusOf, Due, TotalDue;
  }

  lemma AsideStays(w: World, u: World, f: Frame, m: nat)
    requires Aside(w, f, m) && (forall i: nat :: IsPublic(u, i) == IsPublic(w, i))
    ensures Aside(u, f, m)
  {
  }

  lemma StagedAfter(w: World, u: World, s: Plan, above: seq<Frame>, now: seq<Frame>, rest: seq<Frame>)
    requires Staged(w, s, above) && Rolling(u, s.base, now + rest, s.v) && (forall i: nat :: IsPublic(u, i) == IsPublic(w, i))
    requires |rest| > 0 && |rest| <= |above| && rest == above[|above| - |rest|..]
    requires forall j :: 0 <= j < |now| ==> Aside(u, now[j], s.m)
    ensures Staged(u, s, now + rest)
  {
    hide IsPublic, Rolling;
    forall j | 0 <= j < |now + rest| - 1 ensures Aside(u, (now + rest)[j], s.m) {
      if j >= |now| { AsideStays(w, u, above[|above| - |rest| + j - |now|], s.m); }
    }
  }

  /** The list of p calls the next of its due observers. */
  lemma ListGoesOn(w: World, u: World, s: Plan, above: seq<Frame>, a: seq<Observer>)
    requires Around(w, s) && Ahead(w, s, above, a) && a != [] && WCellOk(w, s.p) && u.whens == w.whens && HitOnly(w, u, s.p, s.v)
    requires above == [] || above == [InCallback(s.p, Fail)]
    requires Rolling(u, s.base, [Entered(a[0], s.v), InCallback(s.p, Fail)], s.v)
    ensures Still(u, s) && u.stack != []
    ensures u.stack[0].UserCode? || OnTheWay(u, s, [Entered(a[0], s.v), InCallback(s.p, Fail)], a[1..])
  {
    var now := [Entered(a[0], s.v), InCallback(s.p, Fail)];
    var due := Due(w.cells[s.p].d, Fail);
    assert a[0] == due[0] && a[0] in due && a[0] in a;
    assert WObsOk(w, s.p, Fail, a[0]);
    assert u.stack[0] == now[0];
    StillAfter(w, u, s, s.p) by { NotMaster(w, s); }
    if !now[0].UserCode? {
      EntersAside(w, w, s.p, a[0], s.m, s.v);
      ListAhead(w, u, s, above, now, a);
      SamePublic(w, u, s.p, s.v);
      hide StatusOf, Due, TotalDue, StatusAt, Ahead, Still, WCellOk, WObsOk, HitOnly, IsPublic, Rolls;
      AsideStays(w, u, now[0], s.m);
      assert Staged(u, s, now);
    }
  }

  lemma NotMaster(w: World, s: Plan)
    requires Around(w, s)
    ensures s.p != s.m
  {
    hide StatusOf, Due;
  }

  lemma ListAhead(w: World, u: World, s: Plan, above: seq<Frame>, now: seq<Frame>, a: seq<Observer>)
    requires Around(w, s) && Ahead(w, s, above, a) && a != [] && HitOnly(w, u, s.p, s.v)
    requires above == [] || above == [InCallback(s.p, Fail)]
    requires now == [Entered(a[0], s.v), InCallback(s.p, Fail)] && !IsClient(a[0])
    ensures Ahead(u, s, now, a[1..])
  {
    hide StatusOf, Due, TotalDue, MasterOfPublic;
    if s.t.Some? && AheadOn(w, s, above, a, s.t.value) {
      var t := s.t.value;
      OthersSame(w, u, s.p, s.v, t);
      if Forward(t, Fail) in a && a[0] != Forward(t, Fail) { assert Forward(t, Fail) in a[1..]; }
      assert AheadOn(u, s, now, a[1..], t);
    } else {
      var o :| o in a && IsClient(o);
      assert o in a[1..];
    }
  }

  /** A frame above the list of p takes its step. */
  lemma AsideGoesOn(w: World, u: World, s: Plan, above: seq<Frame>, a: seq<Observer>)
    requires OnTheWay(w, s, above, a) && |above| > 1 && WhenInv(w) && !above[0].UserCode?
    requires Rolled(w, u, above[0], above[1..] + s.base, s.v)
    ensures Still(u, s) && u.stack != []
    ensures u.stack[0].UserCode? || OnTheWay(u, s, After(w, above[0], s.v) + above[1..], a)
  {
    var f, now := above[0], After(w, above[0], s.v);
    assert u.stack == now + above[1..] + s.base;
    hide WhenInv, Rolled, OnTheWay, After, Still, Staged, Ahead;
    AsideStill(w, u, s, above, a);
    if !u.stack[0].UserCode? {
      AsideFrames(w, u, s, above, a);
      AsideAhead(w, u, s, above, a);
      assert OnTheWay(u, s, now + above[1..], a) by { hide *; Gather(u, s, now + above[1..], a); }
    }
  }

  lemma Gather(w: World, s: Plan, above: seq<Frame>, a: seq<Observer>)
    requires Still(w, s) && Staged(w, s, above) && Ahead(w, s, above, a)
    ensures OnTheWay(w, s, above, a)
  {
  }

  /** It concerns neither p nor q nor m. */
  lemma AsideHit(w: World, s: Plan, above: seq<Frame>)
    requires Still(w, s) && Staged(w, s, above) && |above| > 1
    ensures var d := Hit(w, above[0]); d.Some? ==> !IsPublic(w, d.value) && d.value != s.m && !IsResolved(w, d.value)
  {
    hide StatusOf;
    assert Aside(w, above[0], s.m) && Rolls(w, above[0], s.v);
  }

  lemma PublicSame(w: World, u: World, f: Frame, below: seq<Frame>, v: Val)
    requires Rolled(w, u, f, below, v)
    ensures forall i: nat :: IsPublic(u, i) == IsPublic(w, i)
  {
    hide StatusOf, Due, TotalDue, StatusAt, After;
    var d := Hit(w, f);
    if d.Some? { SamePublic(w, u, d.value, v); }
  }

  lemma AsideFrames(w: World, u: World, s: Plan, above: seq<Frame>, a: seq<Observer>)
    requires OnTheWay(w, s, above, a) && |above| > 1 && WhenInv(w) && !above[0].UserCode?
    requires Rolled(w, u, above[0], above[1..] + s.base, s.v) && u.stack != [] && !u.stack[0].UserCode?
    ensures Staged(u, s, After(w, above[0], s.v) + above[1..])
  {
    var now := After(w, above[0], s.v);
    AsideHit(w, s, above);
    PublicSame(w, u, above[0], above[1..] + s.base, s.v);
    NowAside(w, u, s, above[0], above[1..] + s.base);
    hide StatusOf, Due, TotalDue, StatusAt, After, Still, Ahead, IsPublic, WhenInv, HitOnly, Aside, Rolls;
    assert Rolling(u, s.base, now + above[1..], s.v) by { RolledOn(w, u, s.base, above, s.v); }
    hide Rolling, Rolled;
    StagedAfter(w, u, s, above, now, above[1..]);
  }

  /** What comes from Deferreds that client code does not settle stays aside. */
  lemma NowAside(w: World, u: World, s: Plan, f: Frame, below: seq<Frame>)
    requires WhenInv(w) && MasterOfPublic(w, s.m) && !f.UserCode? && Rolled(w, u, f, below, s.v)
    requires Hit(w, f).Some? ==> !IsPublic(w, Hit(w, f).value) && !IsResolved(w, Hit(w, f).value)
    requires (forall i: nat :: IsPublic(u, i) == IsPublic(w, i))
    requires u.stack != [] && !u.stack[0].UserCode?
    ensures forall j :: 0 <= j < |After(w, f, s.v)| ==> Aside(u, After(w, f, s.v)[j], s.m)
  {
    var d := Hit(w, f);
    if d.Some? {
      var due := Due(w.cells[d.value].d, Fail);
      assert WCellOk(w, d.value);
      if due != [] {
        assert due[0] in due;
        assert WObsOk(w, d.value, Fail, due[0]);
        NotOnAside(w, d.value, due[0], s.m);
        EntersAside(w, w, d.value, due[0], s.m, s.v);
        assert u.stack[0] == Entered(due[0], s.v);
        AsideStays(w, u, Entered(due[0], s.v), s.m);
      }
    }
    hide StatusOf, Due, TotalDue, StatusAt, WhenInv, WCellOk, WObsOk, MasterOfPublic;
  }

  lemma AsideStill(w: World, u: World, s: Plan, above: seq<Frame>, a: seq<Observer>)
    requires OnTheWay(w, s, above, a) && |above| > 1 && Rolled(w, u, above[0], above[1..] + s.base, s.v)
    ensures Still(u, s)
  {
    AsideHit(w, s, above);
    var d := Hit(w, above[0]);
    hide StatusOf, Due, TotalDue, After, Ahead, Staged;
    if d.Some? { StillAfter(w, u, s, d.value); }
  }

  lemma AsideAhead(w: World, u: World, s: Plan, above: seq<Frame>, a: seq<Observer>)
    requires OnTheWay(w, s, above, a) && |above| > 1 && Rolled(w, u, above[0], above[1..] + s.base, s.v)
    requires u.stack != [] && !u.stack[0].UserCode?
    ensures Ahead(u, s, After(w, above[0], s.v) + above[1..], a)
  {
    AsideHit(w, s, above);
    var d := Hit(w, above[0]);
    if d.Some? { OthersSame(w, u, d.value, s.v, s.p); }
    hide StatusOf, TotalDue, Staged, MasterOfPublic;
    if s.t.Some? && AheadOn(w, s, above, a, s.t.value) { AheadOnAfter(w, u, s, above, a, s.t.value); }
  }

  lemma AheadOnAfter(w: World, u: World, s: Plan, above: seq<Frame>, a: seq<Observer>, t: nat)
    requires above != [] && Rolled(w, u, above[0], above[1..] + s.base, s.v) && AheadOn(w, s, above, a, t)
    requires u.stack != [] && !u.stack[0].UserCode?
    ensures AheadOn(u, s, After(w, above[0], s.v) + above[1..], a, t)
  {
    hide StatusOf, Due, TotalDue;
    var d := Hit(w, above[0]);
    var f := Glue([GFire(t, Fail, s.v)]);
    if d == Some(t) {
      var due := Due(w.cells[t].d, Fail);
      assert u.stack[0] == Entered(due[0], s.v);
      assert User(s.n) in due[1..];
    } else {
      if d.Some? { OthersSame(w, u, d.value, s.v, t); }
      if StatusAt(w, t).Waiting? && f in above {
        assert f != above[0];
        InTail(above, f);
      }
    }
  }

  /** Library code runs until client code is in control, with q still pending and m undecided. */
  lemma {:induction false} Descend(w: World, s: Plan, above: seq<Frame>, a: seq<Observer>) returns (choices: seq<Choice>)
    requires AllGood(w) && s.base != [] && OnTheWay(w, s, above, a) && !w.stack[0].UserCode?
    ensures var u := Run(w, choices); AllGood(u) && Still(u, s) && u.stack != [] && u.stack[0].UserCode?
    decreases TotalDue(w.cells), TotalWork(above)
  {
    var u := Step(w, GO_ON);
    StepAllGood(w, GO_ON);
    RunOne(w, GO_ON);
    LibraryRolls(w, s, above);
    var now, b := GoOn(w, u, s, above, a);
    hide AllGood, OnTheWay, Still, StatusAt, Step, TotalDue, TotalWork, Rolled;
    choices := [GO_ON];
    if !u.stack[0].UserCode? {
      var more := Descend(u, s, now, b);
      choices := [GO_ON] + more;
      assert choices[1..] == more;
    }
  }

  lemma LibraryRolls(w: World, s: Plan, above: seq<Frame>)
    requires Shape(w) && CellsOk(w) && WhenInv(w) && Rolling(w, s.base, above, s.v) && above != [] && s.base != [] && !w.stack[0].UserCode?
    ensures Rolled(w, Step(w, GO_ON), above[0], above[1..] + s.base, s.v)
  {
    assert w.stack == [above[0]] + (above[1..] + s.base) && Rolls(w, above[0], s.v);
    hide Shape, CellsOk, WhenInv, Step, Rolled, Rolls;
    RollStep(w, GO_ON, above[0], above[1..] + s.base, s.v);
  }

  lemma GoOn(w: World, u: World, s: Plan, above: seq<Frame>, a: seq<Observer>) returns (now: seq<Frame>, b: seq<Observer>)
    requires Shape(w) && WhenInv(w) && OnTheWay(w, s, above, a) && !above[0].UserCode?
    requires Rolled(w, u, above[0], above[1..] + s.base, s.v)
    ensures Still(u, s) && u.stack != [] && (u.stack[0].UserCode? || OnTheWay(u, s, now, b))
    ensures TotalDue(u.cells) < TotalDue(w.cells) || (TotalDue(u.cells) == TotalDue(w.cells) && TotalWork(now) < TotalWork(above))
  {
    assert Rolls(w, above[0], s.v);
    hide Shape, WhenInv, Still, Ahead, After, Rolled, Rolls, TotalDue, TotalWork, MasterOfPublic, Rolling;
    now, b := After(w, above[0], s.v) + above[1..], if |above| == 1 && a != [] then a[1..] else a;
    RolledLess(w, u, above, above[1..] + s.base, s.v);
    if |above| == 1 { OnlyList(w, u, s, above, a); } else { AsideGoesOn(w, u, s, above, a); }
  }

  lemma OnlyList(w: World, u: World, s: Plan, above: seq<Frame>, a: seq<Observer>)
    requires Shape(w) && WhenInv(w) && OnTheWay(w, s, above, a) && |above| == 1
    requires Rolled(w, u, above[0], above[1..] + s.base, s.v)
    ensures a != [] && Still(u, s) && u.stack != []
    ensures u.stack[0].UserCode? || OnTheWay(u, s, After(w, above[0], s.v) + above[1..], a[1..])
  {
    hide Shape, WhenInv, Still, Ahead, After, Rolled, Rolls;
    assert above == [InCallback(s.p, Fail)];
    assert above[1..] + s.base == s.base;
    AtList(w, u, s, a);
    assert After(w, above[0], s.v) + above[1..] == After(w, above[0], s.v);
  }

  lemma AtList(w: World, u: World, s: Plan, a: seq<Observer>)
    requires Shape(w) && WhenInv(w) && OnTheWay(w, s, [InCallback(s.p, Fail)], a)
    requires Rolled(w, u, InCallback(s.p, Fail), s.base, s.v)
    ensures a != [] && Still(u, s) && u.stack != []
    ensures u.stack[0].UserCode? || OnTheWay(u, s, After(w, InCallback(s.p, Fail), s.v), a[1..])
  {
    var f := InCallback(s.p, Fail);
    StillAhead(w, s, a);
    assert WCellOk(w, s.p);
    assert Due(w.cells[s.p].d, Fail)[0] == a[0];
    assert After(w, f, s.v) == [Entered(a[0], s.v), f];
    hide StatusOf, TotalDue, StatusAt, WCellOk, After, Due;
    RolledOn(w, u, s.base, [f], s.v) by { assert [f][1..] + s.base == s.base; }
    assert After(w, f, s.v) + [f][1..] == After(w, f, s.v);
    ListGoesOn(w, u, s, [f], a);
  }

  // ----- the whole run -----

  /** Client code is in control and plans to reject p and then q; a is due on p before the listener of m. */
  ghost predicate Planned(w: World, s: Plan, a: seq<Observer>) {
    && s.base == w.stack && s.base != [] && s.base[0].UserCode?
    && Around(w, s) && StatusAt(w, s.p).Waiting? && Ahead(w, s, [], a)
  }

  /** Client code rejects a pending Deferred of its own. */
  lemma Rejects(w: World, d: nat, v: Val)
    requires Shape(w) && CellsOk(w) && WhenInv(w) && w.stack != [] && w.stack[0].UserCode? && IsPublic(w, d) && StatusAt(w, d).Waiting?
    ensures var u := Step(w, Act(Settle(d, Fail, v)));
      && u.whens == w.whens && HitOnly(w, u, d, v) && Rolling(u, w.stack, Handed(d, Due(w.cells[d].d, Fail), v), v)
  {
    var D := w.cells[d].d;
    assert DInv(D) && WCellOk(w, d);
    FireHandsOut(D, v);
    SettleStep(w, d, Fail, v);
    hide Shape, CellsOk, WhenInv, Step, DInv, StatusOf, HandsOut, FireD, TotalDue, WCellOk, Due, ListsWf, Apply, HitOnly, Rolling, Handed;
    HandOutHits(w, d, FireD(D, Fail, v), v);
  }

  /** p is rejected. */
  lemma RejectP(w: World, s: Plan, a: seq<Observer>) returns (above: seq<Frame>, b: seq<Observer>)
    requires Shape(w) && CellsOk(w) && WhenInv(w) && Planned(w, s, a)
    ensures var u := Step(w, Act(Settle(s.p, Fail, s.v)));
      && Still(u, s) && u.stack != [] && (u.stack[0].UserCode? || OnTheWay(u, s, above, b))
  {
    Rejects(w, s.p, s.v);
    assert WCellOk(w, s.p);
    AheadOfNothing(w, s, a);
    above, b := [Entered(a[0], s.v), InCallback(s.p, Fail)], a[1..];
    hide Shape, CellsOk, WhenInv, Step, StatusOf, TotalDue, WCellOk, Due, MasterOfPublic, StatusAt, Still, Rolling, HitOnly;
    ListGoesOn(w, Step(w, Act(Settle(s.p, Fail, s.v))), s, [], a);
  }

  lemma AheadOfNothing(w: World, s: Plan, a: seq<Observer>)
    requires Ahead(w, s, [], a) && StatusAt(w, s.p).Waiting?
    requires Shape(w) && (s.t.Some? ==> InCallback(s.t.value, Fail) !in w.stack)
    ensures a != [] && Due(w.cells[s.p].d, Fail)[0] == a[0]
  {
    if s.t.Some? && AheadOn(w, s, [], a, s.t.value) && StatusAt(w, s.t.value).Settled? { NothingDue(w.cells[s.t.value].d, Fail); }
  }

  /** Then q is, from within the cascade of p; the cascade of q reaches the master first. */
  lemma RejectQ(w: World, s: Plan, v2: Val) returns (choices: seq<Choice>)
    requires AllGood(w) && Still(w, s) && w.stack != [] && w.stack[0].UserCode?
    ensures StatusAt(Run(w, choices), s.m) == Settled(Fail, v2)
  {
    var c := Act(Settle(s.q, Fail, v2));
    var u := Step(w, c);
    StepAllGood(w, c);
    Rejects(w, s.q, v2);
    QNotFiring(w, s);
    var above := Handed(s.q, Due(w.cells[s.q].d, Fail), v2);
    QReaches(w, u, s, v2);
    hide AllGood, Step, Rolling, Reaching, Still, HitOnly, StatusAt;
    var more := Unwind(u, w.stack, above, s.q, s.m, v2);
    choices := [c] + more;
    assert choices[1..] == more;
  }

  lemma QNotFiring(w: World, s: Plan)
    requires Shape(w) && Still(w, s)
    ensures InCallback(s.q, Fail) !in w.stack
  {
    if Firing(w.cells[s.q].d, Fail) { FiringIsSettled(w.cells[s.q].d, Fail); }
  }

  lemma QReaches(w: World, u: World, s: Plan, v2: Val)
    requires Still(w, s) && HitOnly(w, u, s.q, v2)
    ensures Reaching(u, Handed(s.q, Due(w.cells[s.q].d, Fail), v2), s.q, s.m, v2)
  {
    var due := Due(w.cells[s.q].d, Fail);
    assert s.m != s.q by { hide StatusOf, Due; }
    OthersSame(w, u, s.q, v2, s.m);
    hide StatusOf, Due, TotalDue;
    if due[0] == Forward(s.m, Fail) { assert Handed(s.q, due, v2)[0] == Glue([GFire(s.m, Fail, v2)]); }
    else { assert Forward(s.m, Fail) in due[1..]; }
  }

  /** Both together. */
  lemma RejectBoth(w: World, s: Plan, a: seq<Observer>, v2: Val) returns (choices: seq<Choice>)
    requires AllGood(w) && Planned(w, s, a)
    ensures choices != [] && StatusAt(Run(w, choices[..1]), s.p) == Settled(Fail, s.v)
    ensures StatusAt(Run(w, choices), s.m) == Settled(Fail, v2)
  {
    var c := Act(Settle(s.p, Fail, s.v));
    var above, b := RejectP(w, s, a);
    StepAllGood(w, c);
    RunOne(w, c);
    var u := Step(w, c);
    assert StatusAt(u, s.p) == Settled(Fail, s.v) by { hide AllGood, Step, Planned, StatusAt; }
    hide AllGood, Step, OnTheWay, Still, StatusAt;
    var down := [];
    if !u.stack[0].UserCode? { down := Descend(u, s, above, b); }
    var up := RejectQ(Run(u, down), s, v2);
    RunAppend(u, down, up);
    choices := [c] + (down + up);
    assert choices[1..] == down + up && choices[..1] == [c];
  }
}
