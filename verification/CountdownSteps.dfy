/** Every step of every run keeps the countdown of every `when`. */
module CountdownSteps {
  import opened Prelude
  import opened Observers
  import opened Deferred
  import opened DeferredRuns
  import opened DeferredEffects
  import opened Promises
  import opened PromiseShape
  import opened Then
  import opened Countdown

  ghost predicate AllTokens(w: World) {
    TokensOk(w, Progress, None)
  }

  lemma TokenAt(w: World, x: nat, i: nat)
    requires AllTokens(w)
    ensures TokenOk(w, x, i, 0)
  {
    assert TokenOk(w, x, i, Transit(Progress, None, x, i));
  }

  /** w without its top frame's first `gone` token weights. */
  lemma SameTokens(w: World, u: World)
    requires AllTokens(w) && u.cells == w.cells && u.whens == w.whens
    requires forall x: nat, i: nat :: StackWeight(u.stack, x, i) == StackWeight(w.stack, x, i)
    ensures AllTokens(u)
  {
    hide Due, StatusOf;
    forall x: nat, i: nat ensures TokenOk(u, x, i, Transit(Progress, None, x, i)) {
      TokenAt(w, x, i);
    }
  }

  lemma SameWhen(w: World, u: World)
    requires WhenInv(w) && Grows(w, u) && u.cells == w.cells && u.whens == w.whens
    requires forall f :: f in u.stack ==> f in w.stack || WFrameOk(u, f)
    ensures WhenInv(u)
  {
    hide WCellOk, WFrameOk, StatusAt, RecordOk, Grows;
    forall i: nat | i < |u.cells| ensures WCellOk(u, i) { GrowsCells(w, u); WCellGrows(w, u, i); }
    forall f | f in u.stack ensures WFrameOk(u, f) { if f in w.stack { WFrameGrows(w, u, f); } }
    forall x: nat ensures RecordOk(u, x) {
      if x < |w.whens| { RecordGrows(w, u, x); } else { NoRecord(u, x); }
    }
  }

  lemma GrowsCells(w: World, u: World)
    requires Grows(w, u)
    ensures |w.cells| <= |u.cells|
  {
  }

  // ----- library acts -----

  /** Taking act a off the running frame leaves its token weight in transit. */
  lemma TakeAct(w: World, w0: World, a: Act, rest: seq<Act>, x: nat, i: nat)
    requires w.stack != [] && w.stack[0] == Glue([a] + rest)
    requires w0 == Push(w.(stack := w.stack[1..]), Glue(rest))
    ensures StackWeight(w.stack, x, i) == StackWeight(w0.stack, x, i) + ActWeight(a, x, i)
  {
    assert ([a] + rest)[1..] == rest;
    assert w0.stack[1..] == w.stack[1..];
  }

  lemma FireWhen(w: World, t: nat, k: Kind, v: Val)
    requires Shape(w) && CellsOk(w) && WhenInv(w) && AllTokens(w) && WActOk(w, GFire(t, k, v))
    ensures WhenInv(DoAct(w, GFire(t, k, v))) && AllTokens(DoAct(w, GFire(t, k, v)))
  {
    hide DInv, StatusOf, Firing, Due, OnlyDue, KeepsDue, FireD, ListsWf, WhenInv, TokensOk, Conserves, Allowed;
    FireEffect(w.cells[t].d, k, v);
    FireTraffic(w.cells[t].d, k, v);
    forall x: nat, i: nat ensures Conserves(w.cells[t].d, k, FireD(w.cells[t].d, k, v), None, Collect(x, i)) {
      FireConserves(w.cells[t].d, k, v, Collect(x, i));
    }
    TokensNone(w, k);
    ApplyWhen(w, t, k, FireD(w.cells[t].d, k, v), None);
  }

  lemma TokensNone(w: World, k: Kind)
    requires AllTokens(w)
    ensures TokensOk(w, k, None)
  {
    hide TokenOk;
    forall x: nat, i: nat ensures TokenOk(w, x, i, Transit(k, None, x, i)) { TokenAt(w, x, i); }
  }

  lemma AddWhen(w: World, d: nat, k: Kind, o: Observer)
    requires Shape(w) && CellsOk(w) && WhenInv(w) && TokensOk(w, k, Some(o)) && WActOk(w, GAdd(d, k, o))
    ensures WhenInv(DoAct(w, GAdd(d, k, o))) && AllTokens(DoAct(w, GAdd(d, k, o)))
  {
    hide DInv, StatusOf, Firing, Due, OnlyDue, KeepsDue, AddD, ListsWf, WhenInv, TokensOk, Conserves, Allowed;
    AddEffect(w.cells[d].d, k, o);
    AddTraffic(w.cells[d].d, k, o);
    forall x: nat, i: nat ensures Conserves(w.cells[d].d, k, AddD(w.cells[d].d, k, o), Some(o), Collect(x, i)) {
      AddConserves(w.cells[d].d, k, o, Collect(x, i));
    }
    ApplyWhen(w, d, k, AddD(w.cells[d].d, k, o), Some(o));
  }

  /** The tokens of w, seen from w0, whose running frame no longer has GVisit(x, i). */
  ghost predicate VisitTokens(w0: World, x: nat, i: nat) {
    forall y: nat, j: nat :: TokenOk(w0, y, j, Pending(x, i, y, j))
  }

  /** The token weight of GVisit(x, i) for position j of y. */
  function Pending(x: nat, i: nat, y: nat, j: nat): nat { One(y == x && i <= j) }

  lemma VisitPromise(w: World, x: nat, i: nat)
    requires WhenInv(w) && VisitTokens(w, x, i) && x < |w.whens| && i < |w.whens[x].args|
    requires w.whens[x].args[i].Promise?
    ensures WhenInv(Visit(w, x, i)) && AllTokens(Visit(w, x, i))
  {
    var u := Visit(w, x, i);
    var c := w.whens[x];
    var p := c.args[i].id;
    var acts := [GAdd(p, Done, Collect(x, i)), GAdd(p, Fail, Forward(c.master, Fail)),
                 GAdd(p, Progress, CollectProgress(x, i)), GVisit(x, i + 1)];
    assert u == Push(w, Glue(acts)) && u.stack[1..] == w.stack;
    GrowsSelf(w, u);
    assert RecordOk(w, x) && Counted(w, c, i);
    assert WFrameOk(u, Glue(acts)) by { hide WCellOk; }
    SameWhen(w, u);
    hide Due, StatusOf, WhenInv, Visit, WFrameOk, Grows, RecordOk;
    forall y: nat, j: nat ensures TokenOk(u, y, j, Transit(Progress, None, y, j)) {
      assert TokenOk(w, y, j, Pending(x, i, y, j));
      FourWeights(acts, y, j);
      assert FrameWeight(u.stack[0], y, j) == One(y == x && i <= j);
    }
  }

  lemma FourWeights(acts: seq<Act>, x: nat, i: nat)
    requires |acts| == 4
    ensures ActsWeight(acts, x, i) == ActWeight(acts[0], x, i) + ActWeight(acts[1], x, i)
                                      + ActWeight(acts[2], x, i) + ActWeight(acts[3], x, i)
  {
    assert ActsWeight(acts[3..], x, i) == ActWeight(acts[3], x, i) + ActsWeight([], x, i) by { assert acts[3..][1..] == []; }
    assert ActsWeight(acts[2..], x, i) == ActWeight(acts[2], x, i) + ActsWeight(acts[3..], x, i) by { assert acts[2..][1..] == acts[3..]; }
    assert ActsWeight(acts[1..], x, i) == ActWeight(acts[1], x, i) + ActsWeight(acts[2..], x, i) by { assert acts[1..][1..] == acts[2..]; }
  }

  lemma OneWeight(a: Act, x: nat, i: nat)
    ensures ActsWeight([a], x, i) == ActWeight(a, x, i)
  {
    assert [a][1..] == [];
  }

  lemma VisitPlain(w: World, x: nat, i: nat)
    requires WhenInv(w) && VisitTokens(w, x, i) && x < |w.whens| && i < |w.whens[x].args|
    requires w.whens[x].args[i].Plain?
    ensures WhenInv(Visit(w, x, i)) && AllTokens(Visit(w, x, i))
  {
    var u := Visit(w, x, i);
    var c := w.whens[x];
    assert u.stack[0] == Glue([GVisit(x, i + 1)]) && u.stack[1..] == w.stack;
    assert TokenOk(w, x, i, Pending(x, i, x, i));
    assert i in c.open;
    assert RecordOk(w, x) by { InvRecord(w, x); }
    assert Grows(w, u);
    assert RecordOk(u, x) by {
      hide WCellOk, StatusOf;
      forall j: nat ensures Counted(u, u.whens[x], j) { assert Counted(w, c, j); }
    }
    PlainInv(w, u, x, i);
    hide Due, StatusOf, WhenInv, Visit, WFrameOk, Grows, RecordOk;
    forall y: nat, j: nat ensures TokenOk(u, y, j, Transit(Progress, None, y, j)) {
      assert TokenOk(w, y, j, Pending(x, i, y, j));
      OneWeight(GVisit(x, i + 1), y, j);
      assert FrameWeight(u.stack[0], y, j) == One(y == x && i + 1 <= j);
      if y < |w.whens| && j < |w.whens[y].args| {
        assert DueWeight(u, y, j) == DueWeight(w, y, j);
        assert Lost(u, u.whens[y].args[j]) == Lost(w, w.whens[y].args[j]);
      }
    }
  }

  lemma PlainInv(w: World, u: World, x: nat, i: nat)
    requires WhenInv(w) && Grows(w, u) && x < |w.whens| && RecordOk(u, x) && i < |w.whens[x].args|
    requires u.cells == w.cells && u.stack == [Glue([GVisit(x, i + 1)])] + w.stack
    requires |u.whens| == |w.whens| && forall y :: 0 <= y < |w.whens| && y != x ==> u.whens[y] == w.whens[y]
    ensures WhenInv(u)
  {
    hide WCellOk, StatusAt, RecordOk;
    forall d: nat | d < |u.cells| ensures WCellOk(u, d) { WCellGrows(w, u, d); }
    forall f | f in u.stack ensures WFrameOk(u, f) { if f in w.stack { WFrameGrows(w, u, f); } }
    forall y: nat ensures RecordOk(u, y) {
      if y >= |w.whens| { NoRecord(u, y); } else if y != x { RecordGrows(w, u, y); }
    }
  }

  lemma VisitEnd(w: World, x: nat)
    requires WhenInv(w) && x < |w.whens| && VisitTokens(w, x, |w.whens[x].args|)
    ensures WhenInv(Visit(w, x, |w.whens[x].args|)) && AllTokens(Visit(w, x, |w.whens[x].args|))
  {
    var c := w.whens[x];
    var n := |c.args|;
    var u := Visit(w, x, n);
    assert AllTokens(w) by {
      hide TokenOk;
      forall y: nat, j: nat ensures TokenOk(w, y, j, Transit(Progress, None, y, j)) {
        assert TokenOk(w, y, j, Pending(x, n, y, j));
        if y == x && n <= j { BeyondArgs(w, y, j); }
      }
    }
    if c.remaining == 0 {
      assert RecordOk(w, x) by { InvRecord(w, x); }
      EmptyOpen(w, x);
      var a := GFire(c.master, Done, Values(c.values));
      assert u == Push(w, Glue([a])) && u.stack[1..] == w.stack;
      GrowsSelf(w, u);
      assert WFrameOk(u, Glue([a])) by { AllowedGrows(w, u, c.master, Done, Values(c.values)); }
      SameWhen(w, u);
      forall y: nat, j: nat ensures StackWeight(u.stack, y, j) == StackWeight(w.stack, y, j) {
        OneWeight(a, y, j);
      }
      SameTokens(w, u);
    }
  }

  lemma BeyondArgs(w: World, x: nat, i: nat)
    requires x < |w.whens| ==> i >= |w.whens[x].args|
    ensures forall extra :: TokenOk(w, x, i, extra)
  {
  }

  /** Nothing left to count down: every position has its value. */
  lemma EmptyOpen(w: World, x: nat)
    requires RecordOk(w, x) && x < |w.whens| && w.whens[x].remaining == 0
    ensures Allowed(w, w.whens[x].master, Done, Values(w.whens[x].values))
  {
    hide StatusAt;
    var c := w.whens[x];
    assert c.open == {};
    forall j | 0 <= j < |c.args|
      ensures match c.args[j] case Plain(q) => c.values[j] == q case Promise(p) => StatusAt(w, p) == Settled(Done, c.values[j])
    {
      assert Counted(w, c, j);
    }
  }

  lemma GlueWhen(w: World, a: Act, rest: seq<Act>)
    requires Shape(w) && CellsOk(w) && WhenInv(w) && AllTokens(w)
    requires w.stack[0] == Glue([a] + rest)
    ensures var w0 := Push(w.(stack := w.stack[1..]), Glue(rest));
      CellsOk(w0) && WhenInv(DoAct(w0, a)) && AllTokens(DoAct(w0, a))
  {
    var below := w.(stack := w.stack[1..]);
    var w0 := Push(below, Glue(rest));
    PopShape(w);
    PushShape(below, w0, -1, Done);
    GrowsSelf(w, w0);
    assert WFrameOk(w, w.stack[0]);
    assert a in [a] + rest;
    hide DInv, StatusOf, Due, ListsWf, WCellOk, FireD, AddD, StatusAt;
    assert WFrameOk(w0, Glue(rest)) && WActOk(w0, a) by {
      hide WActOk, Grows, Shape;
      forall b | b in [a] + rest ensures WActOk(w0, b) { WActGrows(w, w0, b); }
      assert forall b :: b in rest ==> b in [a] + rest;
    }
    SameWhen(w, w0);
    hide WhenInv, Shape, Grows, WFrameOk, DoAct;
    TakenTokens(w, w0, a, rest);
    match a
    case GFire(t, k, v) => FireWhen(w0, t, k, v);
    case GAdd(d, k, o) => AddWhen(w0, d, k, o);
    case GVisit(x, i) => VisitWhen(w0, x, i);
  }

  lemma VisitWhen(w: World, x: nat, i: nat)
    requires CellsOk(w) && WhenInv(w) && VisitTokens(w, x, i) && WActOk(w, GVisit(x, i))
    ensures WhenInv(DoAct(w, GVisit(x, i))) && AllTokens(DoAct(w, GVisit(x, i)))
  {
    hide WhenInv, VisitTokens, TokensOk, Visit;
    if i == |w.whens[x].args| { VisitEnd(w, x); }
    else if w.whens[x].args[i].Promise? { VisitPromise(w, x, i); }
    else { VisitPlain(w, x, i); }
  }

  lemma TakenTokens(w: World, w0: World, a: Act, rest: seq<Act>)
    requires AllTokens(w) && w.stack != [] && w.stack[0] == Glue([a] + rest) && WActOk(w0, a)
    requires w0 == Push(w.(stack := w.stack[1..]), Glue(rest))
    ensures a.GFire? ==> AllTokens(w0)
    ensures a.GAdd? ==> TokensOk(w0, a.kind, Some(a.obs))
    ensures a.GVisit? ==> VisitTokens(w0, a.w, a.i)
  {
    hide Due, StatusOf;
    forall x: nat, i: nat
      ensures TokenOk(w0, x, i, ActWeight(a, x, i))
    {
      TokenAt(w, x, i);
      TakeAct(w, w0, a, rest, x, i);
    }
    hide TokenOk;
    match a
    case GFire(_, _, _) =>
      forall x: nat, i: nat ensures TokenOk(w0, x, i, Transit(Progress, None, x, i)) {
        assert TokenOk(w0, x, i, ActWeight(a, x, i));
      }
    case GAdd(d, k, o) =>
      forall x: nat, i: nat ensures TokenOk(w0, x, i, Transit(k, Some(o), x, i)) {
        assert TokenOk(w0, x, i, ActWeight(a, x, i));
        if o == Collect(x, i) { assert k == Done; }
      }
    case GVisit(y, j) =>
      forall x: nat, i: nat ensures TokenOk(w0, x, i, Pending(y, j, x, i)) {
        assert TokenOk(w0, x, i, ActWeight(a, x, i));
      }
  }

  // ----- the other steps -----

  /** Taking off a frame that carries no token. */
  lemma DropWhen(w: World)
    requires WhenInv(w) && AllTokens(w) && w.stack != []
    requires forall x: nat, i: nat :: FrameWeight(w.stack[0], x, i) == 0
    ensures WhenInv(w.(stack := w.stack[1..])) && AllTokens(w.(stack := w.stack[1..]))
  {
    hide WhenInv, TokenOk, WFrameOk;
    var u := w.(stack := w.stack[1..]);
    GrowsSelf(w, u);
    SameWhen(w, u);
    SameTokens(w, u);
  }

  lemma FinishedWhen(w: World, d: nat, k: Kind)
    requires ShapeBut(w, d, k) && d < |w.cells| && CellsOk(w) && WhenInv(w) && AllTokens(w)
    requires Firing(w.cells[d].d, k) && InCallback(d, k) !in w.stack
    ensures WhenInv(Apply(w, d, k, FinishedD(w.cells[d].d, k)))
    ensures AllTokens(Apply(w, d, k, FinishedD(w.cells[d].d, k)))
  {
    hide DInv, StatusOf, Firing, Due, OnlyDue, KeepsDue, FinishedD, ListsWf, WhenInv, TokensOk, Conserves, Allowed;
    var r := FinishedD(w.cells[d].d, k);
    FinishedEffect(w.cells[d].d, k);
    FinishedTraffic(w.cells[d].d, k);
    forall x: nat, i: nat ensures Conserves(w.cells[d].d, k, r, None, Collect(x, i)) {
      FinishedConserves(w.cells[d].d, k, Collect(x, i));
    }
    TokensNone(w, k);
    ApplyWhen(w, d, k, r, None);
  }

  /** A world with one more Deferred, made for anything but `when`. */
  lemma AllocateWhen(w: World, origin: Origin)
    requires WhenInv(w) && AllTokens(w) && !origin.WhenOf?
    ensures var u := w.(cells := w.cells + [Cell(NewDfd(), origin)]); WhenInv(u) && AllTokens(u)
  {
    NewDfdInv();
    FreshDue();
    var u := w.(cells := w.cells + [Cell(NewDfd(), origin)]);
    assert StatusAt(u, |w.cells|) == Waiting;
    assert forall k, o :: o !in Due(u.cells[|w.cells|].d, k);
    hide DInv, StatusOf, Due, NewDfd, WObsOk, WFrameOk;
    assert Grows(w, u);
    assert WCellOk(u, |w.cells|);
    hide WCellOk, RecordOk, Grows;
    forall d: nat | d < |u.cells| ensures WCellOk(u, d) { if d < |w.cells| { WCellGrows(w, u, d); } }
    forall f | f in u.stack ensures WFrameOk(u, f) { WFrameGrows(w, u, f); }
    forall x: nat ensures RecordOk(u, x) { if x < |w.whens| { RecordGrows(w, u, x); } else { NoRecord(u, x); } }
    forall x: nat, i: nat ensures TokenOk(u, x, i, Transit(Progress, None, x, i)) {
      TokenAt(w, x, i);
      CellsTokens(w, u, x, i);
    }
  }

  lemma CellsTokens(w: World, u: World, x: nat, i: nat)
    requires TokenOk(w, x, i, 0) && WhenInv(w)
    requires w.cells <= u.cells && u.whens == w.whens && u.stack == w.stack
    ensures TokenOk(u, x, i, 0)
  {
    assert RecordOk(w, x) by { InvRecord(w, x); }
    hide Due, StatusOf, WhenInv;
    if x < |w.whens| && i < |w.whens[x].args| {
      assert Counted(w, w.whens[x], i);
    }
  }

  /** The world in which `when` was just called, before its loop starts. */
  lemma StartWhenInv(w: World, args: seq<Arg>)
    requires WhenInv(w) && AllTokens(w)
    requires forall i :: 0 <= i < |args| ==> ValidArg(w, args[i])
    requires !(|args| == 1 && args[0].Promise?)
    ensures WhenInv(StartWhen(w, args)) && AllTokens(StartWhen(w, args))
  {
    var u := StartWhen(w, args);
    var x := |w.whens|;
    StartParts(w, u, args);
    hide DInv, StatusOf, StatusAt, Due, NewDfd, WCellOk, RecordOk, Grows, WFrameOk;
    assert u.stack == [u.stack[0]] + w.stack;
    forall d: nat | d < |u.cells| ensures WCellOk(u, d) { if d < |w.cells| { WCellGrows(w, u, d); } }
    forall f | f in u.stack ensures WFrameOk(u, f) { if f in w.stack { WFrameGrows(w, u, f); } }
    forall y: nat ensures RecordOk(u, y) {
      if y < |w.whens| { RecordGrows(w, u, y); } else if y > x { NoRecord(u, y); }
    }
    StartTokens(w, u, args);
  }

  /** What is new: the record of the call, its master and the frame of its loop. */
  lemma StartParts(w: World, u: World, args: seq<Arg>)
    requires u == StartWhen(w, args) && !(|args| == 1 && args[0].Promise?)
    requires forall i :: 0 <= i < |args| ==> ValidArg(w, args[i])
    ensures Grows(w, u) && RecordOk(u, |w.whens|) && WCellOk(u, |w.cells|)
    ensures u.stack != [] && u.stack[1..] == w.stack && WFrameOk(u, u.stack[0])
  {
    NewDfdInv();
    FreshDue();
    var x, m := |w.whens|, |w.cells|;
    assert StatusAt(u, m) == Waiting;
    assert forall k, o :: o !in Due(u.cells[m].d, k);
    hide DInv, StatusOf, Due, NewDfd, WObsOk;
    assert Grows(w, u);
    assert u.stack[1..] == w.stack;
    assert RecordOk(u, x) by { hide WCellOk, WFrameOk, Grows, StatusAt; }
    if |args| <= 1 { EmptyOpen(u, x); }
    assert WFrameOk(u, u.stack[0]) by { hide WCellOk, Grows; }
    assert WCellOk(u, m);
  }

  lemma StartTokens(w: World, u: World, args: seq<Arg>)
    requires WhenInv(w) && AllTokens(w) && u == StartWhen(w, args) && WhenInv(u)
    requires forall i :: 0 <= i < |args| ==> ValidArg(w, args[i])
    requires !(|args| == 1 && args[0].Promise?)
    ensures AllTokens(u)
  {
    var x, n := |w.whens|, |args|;
    forall y: nat, j: nat ensures TokenOk(u, y, j, Transit(Progress, None, y, j)) {
      TokenAt(w, y, j);
      OneWeight(GVisit(x, 0), y, j);
      OneWeight(GFire(|w.cells|, Done, Values(ValuesOf(args))), y, j);
      assert u.stack[1..] == w.stack;
      if y < x {
        CellsTokens(w, w.(cells := u.cells), y, j);
        OldTokens(w, u, args, y, j);
      } else if y == x {
        NewTokens(w, u, args, j);
      } else {
        BeyondArgs(u, y, j);
      }
    }
  }

  lemma OldTokens(w: World, u: World, args: seq<Arg>, y: nat, j: nat)
    requires u == StartWhen(w, args) && !(|args| == 1 && args[0].Promise?) && y < |w.whens|
    requires TokenOk(w.(cells := u.cells), y, j, 0)
    requires StackWeight(u.stack, y, j) == StackWeight(w.stack, y, j)
    ensures TokenOk(u, y, j, 0)
  {
    hide Due, StatusOf, NewDfd;
    var v := w.(cells := u.cells);
    assert u.whens[y] == w.whens[y];
    if j < |w.whens[y].args| {
      assert DueWeight(u, y, j) == DueWeight(v, y, j);
      assert Lost(u, u.whens[y].args[j]) == Lost(v, w.whens[y].args[j]);
    }
  }

  /** A new call of `when`: nothing of it is registered anywhere; one visit is pending for every position. */
  lemma NewTokens(w: World, u: World, args: seq<Arg>, j: nat)
    requires WhenInv(w) && u == StartWhen(w, args) && !(|args| == 1 && args[0].Promise?)
    requires forall i :: 0 <= i < |args| ==> ValidArg(w, args[i])
    ensures TokenOk(u, |w.whens|, j, 0)
  {
    var x := |w.whens|;
    if j < |args| {
      StackFresh(w, w.stack, x, j);
      OneWeight(GVisit(x, 0), x, j);
      OneWeight(GFire(|w.cells|, Done, Values(ValuesOf(args))), x, j);
      assert u.stack[1..] == w.stack;
      if args[j].Promise? {
        var p := args[j].id;
        assert ValidArg(w, args[j]);
        assert WCellOk(w, p);
        hide WhenInv, StatusOf, NewDfd;
        assert !WObsOk(w, p, Done, Collect(x, j));
        assert Collect(x, j) !in Due(w.cells[p].d, Done);
        AbsentCount(Due(w.cells[p].d, Done), Collect(x, j));
      }
    }
  }

  lemma AbsentCount<T>(s: seq<T>, x: T)
    requires x !in s
    ensures Count(s, x) == 0
  {
  }

  /** No frame mentions a call of `when` that has not happened yet. */
  lemma StackFresh(w: World, stack: seq<Frame>, x: nat, i: nat)
    requires forall f :: f in stack ==> WFrameOk(w, f)
    requires x >= |w.whens|
    ensures StackWeight(stack, x, i) == 0
  {
    if stack != [] {
      StackFresh(w, stack[1..], x, i);
      assert WFrameOk(w, stack[0]);
      if stack[0].Glue? { ActsFresh(w, stack[0].acts, x, i); }
    }
  }

  lemma ActsFresh(w: World, acts: seq<Act>, x: nat, i: nat)
    requires forall a :: a in acts ==> WActOk(w, a)
    requires x >= |w.whens|
    ensures ActsWeight(acts, x, i) == 0
  {
    hide Allowed;
    if acts != [] {
      ActsFresh(w, acts[1..], x, i);
      assert WActOk(w, acts[0]);
    }
  }

  lemma ActionWhen(w: World, a: Action)
    requires Shape(w) && CellsOk(w) && WhenInv(w) && AllTokens(w)
    ensures WhenInv(DoAction(w, a)) && AllTokens(DoAction(w, a))
  {
    hide DInv, StatusOf, Firing, Due, FireD, AddD, ListsWf, WhenInv, TokensOk, StartWhen;
    match a
    case MakeDeferred => AllocateWhen(w, Public);
    case Settle(d, k, v) =>
      if d < |w.cells| && w.cells[d].origin == Public { FireWhen(w, d, k, v); }
    case Listen(d, k, n) =>
      if d < |w.cells| {
        assert WActOk(w, GAdd(d, k, User(n)));
        ListenTokens(w, k, n);
        AddWhen(w, d, k, User(n));
      }
    case Then(d, fns) => if d < |w.cells| { StartThenWhen(w, d, fns); }
    case WhenAll(args) =>
      if forall i :: 0 <= i < |args| ==> ValidArg(w, args[i]) {
        if |args| == 1 && args[0].Promise? { SinglePromise(w, args); } else { StartWhenInv(w, args); }
      }
  }

  lemma SinglePromise(w: World, args: seq<Arg>)
    requires |args| == 1 && args[0].Promise?
    ensures StartWhen(w, args) == w
  {
  }

  lemma ListenTokens(w: World, k: Kind, n: nat)
    requires AllTokens(w)
    ensures TokensOk(w, k, Some(User(n)))
  {
    hide TokenOk;
    forall x: nat, i: nat ensures TokenOk(w, x, i, Transit(k, Some(User(n)), x, i)) { TokenAt(w, x, i); }
  }

  lemma StartThenWhen(w: World, d: nat, fns: Fns)
    requires WhenInv(w) && AllTokens(w) && CellsOk(w) && d < |w.cells|
    ensures WhenInv(DoAction(w, Then(d, fns))) && AllTokens(DoAction(w, Then(d, fns)))
  {
    AllocateWhen(w, ThenOf(d, fns));
    hide DInv, StatusOf, Due, NewDfd, ListsWf, WhenInv, AllTokens;
    var t := |w.cells|;
    var w1 := w.(cells := w.cells + [Cell(NewDfd(), ThenOf(d, fns))]);
    var u := DoAction(w, Then(d, fns));
    var acts := ThenAdds(d, t, fns);
    assert u == Push(w1, Glue(acts)) && u.stack[1..] == w1.stack;
    GrowsSelf(w1, u);
    assert WFrameOk(u, Glue(acts));
    SameWhen(w1, u);
    forall x: nat, i: nat ensures StackWeight(u.stack, x, i) == StackWeight(w1.stack, x, i) {
      ThreeWeights(acts, x, i);
    }
    SameTokens(w1, u);
  }

  lemma ThreeWeights(acts: seq<Act>, x: nat, i: nat)
    requires |acts| == 3
    ensures ActsWeight(acts, x, i) == ActWeight(acts[0], x, i) + ActWeight(acts[1], x, i) + ActWeight(acts[2], x, i)
  {
    assert ActsWeight(acts[2..], x, i) == ActWeight(acts[2], x, i) + ActsWeight([], x, i) by { assert acts[2..][1..] == []; }
    assert ActsWeight(acts[1..], x, i) == ActWeight(acts[1], x, i) + ActsWeight(acts[2..], x, i) by { assert acts[1..][1..] == acts[2..]; }
  }

  lemma AnswerWeight(h: Handling, ret: Arg, x: nat, i: nat)
    ensures ActsWeight(AfterHandler(h, ret), x, i) == 0
  {
    var acts := AfterHandler(h, ret);
    if ret.Plain? { OneWeight(acts[0], x, i); } else { ThreeWeights(acts, x, i); }
  }

  lemma ReturnWhen(w: World, h: Option<Handling>, ret: Arg)
    requires WhenInv(w) && AllTokens(w) && w.stack != [] && w.stack[0] == UserCode(h)
    requires FrameOk(w, w.stack[0])
    ensures WhenInv(DoReturn(w, h, ret)) && AllTokens(DoReturn(w, h, ret))
  {
    hide DInv, StatusOf, StatusAt, Due, WhenInv, AllTokens;
    if |w.stack| > 1 && ValidArg(w, ret) {
      DropWhen(w);
      if h.Some? {
        var w1 := w.(stack := w.stack[1..]);
        var u := DoReturn(w, h, ret);
        var acts := AfterHandler(h.value, ret);
        assert u == Push(w1.(calls := u.calls), Glue(acts)) && u.stack[1..] == w1.stack;
        CallsGrow(w1, u);
        assert WFrameOk(u, Glue(acts));
        SameWhen(w1, u);
        forall x: nat, i: nat ensures StackWeight(u.stack, x, i) == StackWeight(w1.stack, x, i) {
          AnswerWeight(h.value, ret, x, i);
        }
        SameTokens(w1, u);
      }
    }
  }

  lemma CallsGrow(w: World, u: World)
    requires u.cells == w.cells && u.whens == w.whens && w.calls <= u.calls
    ensures Grows(w, u)
  {
  }

  lemma StepWhen(w: World, c: Choice)
    requires Shape(w) && CellsOk(w) && ThenInv(w) && WhenInv(w) && AllTokens(w)
    ensures WhenInv(Step(w, c)) && AllTokens(Step(w, c))
  {
    hide DInv, StatusOf, StatusAt, Firing, Due, FireD, AddD, FinishedD, ListsWf, WhenInv, AllTokens, DoAct, DoAction, DoReturn, FrameOk, CellOk;
    match w.stack[0]
    case InCallback(d, k) =>
      PopShape(w);
      DropWhen(w);
      FinishedWhen(w.(stack := w.stack[1..]), d, k);
    case Glue(acts) =>
      if acts == [] {
        DropWhen(w);
      } else {
        assert acts == [acts[0]] + acts[1..];
        GlueWhen(w, acts[0], acts[1..]);
      }
    case UserCode(h) =>
      match c
      case Act(a) => ActionWhen(w, a);
      case Return(ret) => ReturnWhen(w, h, ret);
  }
}
