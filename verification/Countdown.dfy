/** `when`: the countdown and the master promise, for every run of the most general client. */
module Countdown {
  import opened Prelude
  import opened Observers
  import opened Deferred
  import opened DeferredRuns
  import opened DeferredEffects
  import opened Promises
  import opened PromiseShape
  import opened Then

  ghost predicate IsWhen(w: World, t: nat) {
    t < |w.cells| && w.cells[t].origin.WhenOf?
  }

  /** v lists, position by position, the plain values and the values of the resolved promises. */
  ghost predicate AllResolved(w: World, x: nat, v: Val) {
    && x < |w.whens| && v.Values? && |v.vs| == |w.whens[x].args|
    && forall i :: 0 <= i < |v.vs| ==>
      match w.whens[x].args[i]
      case Plain(u) => v.vs[i] == u
      case Promise(p) => StatusAt(w, p) == Settled(Done, v.vs[i])
  }

  ghost predicate RejectedWith(w: World, a: Arg, v: Val) {
    a.Promise? && StatusAt(w, a.id) == Settled(Fail, v)
  }

  /** v is the rejection of one of the promises. */
  ghost predicate SomeRejected(w: World, x: nat, v: Val) {
    x < |w.whens| && exists a :: a in w.whens[x].args && RejectedWith(w, a, v)
  }

  /** The only ways in which a master may be settled. */
  ghost predicate Allowed(w: World, t: nat, k: Kind, v: Val) {
    && IsWhen(w, t) && k != Progress
    && if k == Done then AllResolved(w, w.cells[t].origin.w, v) else SomeRejected(w, w.cells[t].origin.w, v)
  }

  // ----- the closure of one call of `when` -----

  ghost predicate Counted(w: World, c: When, i: nat)
    requires |c.values| == |c.args|
  {
    i < |c.args| ==>
      match c.args[i]
      case Plain(v) => c.values[i] == v
      case Promise(p) => p < |w.cells| && (i !in c.open ==> StatusAt(w, p) == Settled(Done, c.values[i]))
  }

  ghost predicate RecordOk(w: World, x: nat) {
    x < |w.whens| ==>
      var c := w.whens[x];
      && |c.values| == |c.args| == |c.notes|
      && c.remaining == |c.open|
      && (forall i :: i in c.open ==> i < |c.args|)
      && (forall i: nat :: Counted(w, c, i))
      && IsWhen(w, c.master) && w.cells[c.master].origin.w == x
  }

  /** Every master has its record. */
  ghost predicate MasterOk(w: World, t: nat) {
    IsWhen(w, t) ==> w.cells[t].origin.w < |w.whens| && w.whens[w.cells[t].origin.w].master == t
  }

  // ----- where the one token of position i may be -----

  function ActWeight(a: Act, x: nat, i: nat): nat {
    match a
    case GAdd(_, _, o) => One(o == Collect(x, i))
    case GVisit(y, j) => One(y == x && j <= i)
    case GFire(_, _, _) => 0
  }

  function ActsWeight(acts: seq<Act>, x: nat, i: nat): nat {
    if acts == [] then 0 else ActWeight(acts[0], x, i) + ActsWeight(acts[1..], x, i)
  }

  function FrameWeight(f: Frame, x: nat, i: nat): nat {
    if f.Glue? then ActsWeight(f.acts, x, i) else 0
  }

  function StackWeight(stack: seq<Frame>, x: nat, i: nat): nat {
    if stack == [] then 0 else FrameWeight(stack[0], x, i) + StackWeight(stack[1..], x, i)
  }

  ghost function DueWeight(w: World, x: nat, i: nat): nat {
    if x < |w.whens| && i < |w.whens[x].args| && w.whens[x].args[i].Promise? && w.whens[x].args[i].id < |w.cells|
    then Count(Due(w.cells[w.whens[x].args[i].id].d, Done), Collect(x, i)) else 0
  }

  /** The tokens of position i in w, with `extra` of them in transit. */
  ghost function Tokens(w: World, x: nat, i: nat, extra: nat): nat {
    DueWeight(w, x, i) + StackWeight(w.stack, x, i) + extra
  }

  predicate Lost(w: World, a: Arg) {
    a.Promise? && StatusAt(w, a.id).Settled? && StatusAt(w, a.id).kind == Fail
  }

  /** Position i is open exactly while its token exists; only a rejection destroys the token without closing i. */
  ghost predicate TokenOk(w: World, x: nat, i: nat, extra: nat) {
    x < |w.whens| && i < |w.whens[x].args| ==>
      && Tokens(w, x, i, extra) <= One(i in w.whens[x].open)
      && (!Lost(w, w.whens[x].args[i]) ==> Tokens(w, x, i, extra) == One(i in w.whens[x].open))
  }

  // ----- legitimacy, as for `then` -----

  ghost predicate WObsOk(w: World, d: nat, k: Kind, o: Observer) {
    match o
    case Forward(t, k1) =>
      t < |w.cells| && w.cells[t].origin != Public && k1 == k && (IsWhen(w, t) && k != Progress ==>
        k == Fail && w.cells[t].origin.w < |w.whens| && Promise(d) in w.whens[w.cells[t].origin.w].args)
    case Collect(x, i) =>
      k == Done && x < |w.whens| && i < |w.whens[x].args| && w.whens[x].args[i] == Promise(d)
    case Handle(_, k1, _) => k1 == k
    case CollectProgress(_, _) => k == Progress
    case User(_) => true
  }

  ghost predicate WActOk(w: World, a: Act) {
    match a
    case GFire(t, k, v) => t < |w.cells| && (k != Progress && IsWhen(w, t) ==> Allowed(w, t, k, v))
    case GAdd(d, k, o) => d < |w.cells| && WObsOk(w, d, k, o)
    case GVisit(x, i) => x < |w.whens| && i <= |w.whens[x].args|
  }

  ghost predicate WFrameOk(w: World, f: Frame) {
    f.Glue? ==> forall a :: a in f.acts ==> WActOk(w, a)
  }

  ghost predicate WCellOk(w: World, d: nat)
    requires d < |w.cells|
  {
    && (forall k, o {:trigger o in Due(w.cells[d].d, k)} :: k != Progress && o in Due(w.cells[d].d, k) ==> WObsOk(w, d, k, o))
    && (forall o :: o in w.cells[d].d.progress.added ==> WObsOk(w, d, Progress, o))
    && (IsWhen(w, d) && StatusAt(w, d).Settled? ==> Allowed(w, d, StatusAt(w, d).kind, StatusAt(w, d).value))
    && MasterOk(w, d)
  }

  ghost predicate WhenInv(w: World) {
    && (forall d: nat :: d < |w.cells| ==> WCellOk(w, d))
    && (forall f :: f in w.stack ==> WFrameOk(w, f))
    && (forall x: nat :: RecordOk(w, x))
  }

  // ----- growth -----

  lemma AllowedGrows(w: World, u: World, t: nat, k: Kind, v: Val)
    requires Grows(w, u) && Allowed(w, t, k, v)
    ensures Allowed(u, t, k, v)
  {
    hide StatusOf;
    var x := w.cells[t].origin.w;
    if k == Done {
      forall i | 0 <= i < |v.vs| && w.whens[x].args[i].Promise?
        ensures StatusAt(u, w.whens[x].args[i].id) == Settled(Done, v.vs[i])
      {
        StatusInside(w, w.whens[x].args[i].id);
      }
    } else {
      var a :| a in w.whens[x].args && RejectedWith(w, a, v);
      StatusInside(w, a.id);
      assert RejectedWith(u, a, v);
    }
  }

  lemma WObsGrows(w: World, u: World, d: nat, k: Kind, o: Observer)
    requires Grows(w, u) && WObsOk(w, d, k, o)
    ensures WObsOk(u, d, k, o)
  {
    hide StatusAt;
  }

  lemma WActGrows(w: World, u: World, a: Act)
    requires Grows(w, u) && WActOk(w, a)
    ensures WActOk(u, a)
  {
    hide StatusAt, WObsOk, Allowed;
    match a
    case GFire(t, k, v) => if IsWhen(w, t) && k != Progress { AllowedGrows(w, u, t, k, v); }
    case GAdd(d, k, o) => WObsGrows(w, u, d, k, o);
    case GVisit(_, _) =>
  }

  lemma WFrameGrows(w: World, u: World, f: Frame)
    requires Grows(w, u) && WFrameOk(w, f)
    ensures WFrameOk(u, f)
  {
    hide WActOk, Grows;
    if f.Glue? { forall a | a in f.acts ensures WActOk(u, a) { WActGrows(w, u, a); } }
  }

  lemma WCellGrows(w: World, u: World, d: nat)
    requires Grows(w, u) && d < |w.cells| && WCellOk(w, d) && u.cells[d] == w.cells[d]
    ensures WCellOk(u, d)
  {
    hide Due, StatusOf, WObsOk, Allowed;
    var D := w.cells[d].d;
    forall k, o | k != Progress && o in Due(D, k) ensures WObsOk(u, d, k, o) { WObsGrows(w, u, d, k, o); }
    forall o | o in D.progress.added ensures WObsOk(u, d, Progress, o) { WObsGrows(w, u, d, Progress, o); }
    if IsWhen(w, d) && StatusAt(w, d).Settled? { AllowedGrows(w, u, d, StatusAt(w, d).kind, StatusAt(w, d).value); }
  }

  lemma RecordGrows(w: World, u: World, x: nat)
    requires Grows(w, u) && RecordOk(w, x) && x < |w.whens| && u.whens[x] == w.whens[x]
    ensures RecordOk(u, x)
  {
    hide StatusOf;
    var c := w.whens[x];
    forall i: nat ensures Counted(u, c, i) {
      assert Counted(w, c, i);
      if i < |c.args| && c.args[i].Promise? && i !in c.open { StatusInside(w, c.args[i].id); }
    }
  }

  // ----- one operation on one Deferred -----

  ghost predicate WOpOk(w: World, d: nat, k: Kind, r: (Dfd, Option<Observer>), o: Option<Observer>) {
    && d < |w.cells|
    && OnlyDue(w.cells[d].d, k, r, o)
    && (o.Some? ==> WObsOk(w, d, k, o.value))
    && (IsWhen(w, d) && StatusAt(w, d).Waiting? && StatusOf(r.0).Settled? ==>
      Allowed(w, d, StatusOf(r.0).kind, StatusOf(r.0).value))
    && (k != Progress && r.1.Some? ==> StatusOf(r.0) == Settled(k, Argument(r.0, k)))
  }

  /** All tokens are in place, except that observer o is on its way to the done side if k is Done. */
  ghost predicate TokensOk(w: World, k: Kind, o: Option<Observer>) {
    forall x: nat, i: nat :: TokenOk(w, x, i, Transit(k, o, x, i))
  }

  function Transit(k: Kind, o: Option<Observer>, x: nat, i: nat): nat {
    One(k == Done && o == Some(Collect(x, i)))
  }

  ghost predicate ConservesAll(d: Dfd, k: Kind, r: (Dfd, Option<Observer>), o: Option<Observer>) {
    forall x: nat, i: nat :: Conserves(d, k, r, o, Collect(x, i))
  }

  lemma WUpdatedCell(w: World, u: World, d: nat, k: Kind, r: (Dfd, Option<Observer>), o: Option<Observer>)
    requires WOpOk(w, d, k, r, o) && WCellOk(w, d) && Grows(w, u)
    requires u.cells == w.cells[d := w.cells[d].(d := r.0)]
    ensures WCellOk(u, d)
    ensures r.1.Some? ==> WObsOk(u, d, k, r.1.value)
  {
    hide Due, StatusOf, WObsOk, Allowed;
    forall q, x | q != Progress && x in Due(r.0, q) ensures WObsOk(u, d, q, x) {
      if x !in Due(w.cells[d].d, q) { NewlyDue(w.cells[d].d, k, r, o, q, x); }
      WObsGrows(w, u, d, q, x);
    }
    forall x | x in r.0.progress.added ensures WObsOk(u, d, Progress, x) {
      assert WObsOk(w, d, Progress, x);
      WObsGrows(w, u, d, Progress, x);
    }
    if IsWhen(w, d) && StatusAt(u, d).Settled? {
      if StatusAt(w, d).Settled? { AllowedGrows(w, u, d, StatusAt(w, d).kind, StatusAt(w, d).value); }
      else { AllowedGrows(w, u, d, StatusOf(r.0).kind, StatusOf(r.0).value); }
    }
    if r.1.Some? {
      assert WObsOk(w, d, k, r.1.value);
      WObsGrows(w, u, d, k, r.1.value);
    }
  }

  /** The world after the cell update and, if a callback is up, the suspension of its list. */
  function Suspended(w: World, d: nat, k: Kind, r: (Dfd, Option<Observer>)): World
    requires d < |w.cells|
  {
    var w1 := w.(cells := w.cells[d := w.cells[d].(d := r.0)]);
    if r.1.None? then w1 else Push(w1, InCallback(d, k))
  }

  lemma SuspendedInv(w: World, d: nat, k: Kind, r: (Dfd, Option<Observer>), o: Option<Observer>)
    requires WhenInv(w) && WOpOk(w, d, k, r, o)
    requires Effect(w.cells[d].d, k, r, InCallback(d, k) in w.stack)
    ensures WhenInv(Suspended(w, d, k, r)) && Grows(w, Suspended(w, d, k, r))
    ensures r.1.Some? ==> WObsOk(Suspended(w, d, k, r), d, k, r.1.value)
  {
    UpdateGrows(w, d, k, r);
    hide DInv, StatusOf, Firing, Due, WCellOk, WFrameOk, OnlyDue, RecordOk, WObsOk, Effect;
    var u := Suspended(w, d, k, r);
    assert Grows(w, u);
    WUpdatedCell(w, u, d, k, r, o);
    forall i: nat | i < |u.cells| ensures WCellOk(u, i) { if i != d { WCellGrows(w, u, i); } }
    forall f | f in u.stack ensures WFrameOk(u, f) {
      if f in w.stack { WFrameGrows(w, u, f); } else { CallbackFrame(u, d, k); }
    }
    forall x: nat ensures RecordOk(u, x) {
      if x < |w.whens| { RecordGrows(w, u, x); } else { NoRecord(u, x); }
    }
  }

  lemma CallbackFrame(w: World, d: nat, k: Kind)
    ensures WFrameOk(w, InCallback(d, k))
  {
  }

  lemma NoRecord(w: World, x: nat)
    requires x >= |w.whens|
    ensures RecordOk(w, x)
  {
  }

  /** The tokens after the update: those in transit have arrived, those handed out are in transit. */
  lemma SuspendedTokens(w: World, d: nat, k: Kind, r: (Dfd, Option<Observer>), o: Option<Observer>, x: nat, i: nat)
    requires WOpOk(w, d, k, r, o)
    requires TokenOk(w, x, i, Transit(k, o, x, i)) && Conserves(w.cells[d].d, k, r, o, Collect(x, i))
    requires Grows(w, Suspended(w, d, k, r))
    requires r.1.Some? ==> WObsOk(Suspended(w, d, k, r), d, k, r.1.value)
    ensures TokenOk(Suspended(w, d, k, r), x, i, Transit(k, r.1, x, i))
  {
    hide DInv, StatusOf, Due, OnlyDue, Allowed;
    var u := Suspended(w, d, k, r);
    assert StackWeight(u.stack, x, i) == StackWeight(w.stack, x, i) by {
      if r.1.Some? { assert u.stack[1..] == w.stack; }
    }
    if x < |w.whens| && i < |w.whens[x].args| && w.whens[x].args[i].Promise? {
      var p := w.whens[x].args[i].id;
      if p == d {
        assert StatusAt(u, p) == StatusOf(r.0);
      } else {
        assert StatusAt(u, p) == StatusAt(w, p);
      }
    }
  }

  // ----- entering an observer -----

  lemma EnterGrows(w: World, o: Observer, v: Val)
    ensures Grows(w, Enter(w, o, v)) && Enter(w, o, v).cells == w.cells
  {
    EnterPushes(w, o, v);
  }

  /** At most one frame was pushed: client code or a legitimate settlement, carrying no token. */
  ghost predicate EnteredQuietly(w: World, u: World) {
    u.stack == w.stack ||
    (u.stack != [] && u.stack[1..] == w.stack && WFrameOk(u, u.stack[0])
      && (u.stack[0].UserCode? || (u.stack[0].Glue? && |u.stack[0].acts| == 1 && u.stack[0].acts[0].GFire?)))
  }

  lemma QuietWeight(w: World, u: World, x: nat, i: nat)
    requires EnteredQuietly(w, u)
    ensures StackWeight(u.stack, x, i) == StackWeight(w.stack, x, i)
  {
    if u.stack != w.stack && u.stack[0].Glue? {
      assert u.stack[0].acts[1..] == [];
      assert ActsWeight([], x, i) == 0 && ActWeight(u.stack[0].acts[0], x, i) == 0;
      assert FrameWeight(u.stack[0], x, i) == 0;
    }
  }

  /** The countdown of one position. */
  lemma CollectRecord(w: World, d: nat, x: nat, i: nat, v: Val)
    requires WhenInv(w) && WObsOk(w, d, Done, Collect(x, i)) && StatusAt(w, d) == Settled(Done, v)
    requires i in w.whens[x].open
    ensures var u := Enter(w, Collect(x, i), v);
      && u.cells == w.cells && |u.whens| == |w.whens| && Grows(w, u)
      && RecordOk(u, x)
      && u.whens[x].open == w.whens[x].open - {i}
      && EnteredQuietly(w, u)
  {
    EnterGrows(w, Collect(x, i), v);
    assert RecordOk(w, x);
    hide WCellOk, StatusOf, Grows;
    var u := Enter(w, Collect(x, i), v);
    var c, c1 := w.whens[x], u.whens[x];
    forall j: nat ensures Counted(u, c1, j) { assert Counted(w, c, j); }
    if c1.remaining == 0 {
      assert |c1.open| == |c.open| - 1 == c.remaining - 1 == 0;
      assert c1.open == {};
      var t := Values(c1.values);
      assert AllResolved(u, x, t) by {
        forall j | 0 <= j < |c1.args|
          ensures match c1.args[j] case Plain(q) => c1.values[j] == q case Promise(p) => StatusAt(u, p) == Settled(Done, c1.values[j])
        {
          assert Counted(u, c1, j);
        }
      }
      assert Allowed(u, c1.master, Done, t);
      assert u.stack[0] == Glue([GFire(c1.master, Done, t)]);
      assert u.stack[1..] == w.stack;
    } else {
      assert u.stack == w.stack;
    }
  }

  lemma EnterFrame(w: World, d: nat, k: Kind, o: Observer, v: Val)
    requires WhenInv(w) && WObsOk(w, d, k, o) && !o.Collect?
    requires k != Progress ==> StatusAt(w, d) == Settled(k, v)
    ensures EnteredQuietly(w, Enter(w, o, v))
  {
    hide WCellOk, StatusOf, StatusAt;
    EnterGrows(w, o, v);
    var u := Enter(w, o, v);
    match o
    case User(_) => assert u.stack[1..] == w.stack;
    case Handle(t, k1, fn) => assert u.stack[1..] == w.stack;
    case Forward(t, k1) =>
      assert u.stack[1..] == w.stack;
      if IsWhen(w, t) && k1 != Progress {
        assert RejectedWith(w, Promise(d), v);
        assert Allowed(w, t, k1, v);
        AllowedGrows(w, u, t, k1, v);
      }
    case CollectProgress(x, i) =>
      if u.stack != w.stack {
        assert u.stack[1..] == w.stack;
        assert RecordOk(w, x);
      }
  }

  /** Entering a legitimately registered observer. */
  lemma EnterInv(w: World, d: nat, k: Kind, o: Observer, v: Val)
    requires WhenInv(w) && WObsOk(w, d, k, o)
    requires k != Progress ==> StatusAt(w, d) == Settled(k, v)
    requires o.Collect? ==> o.i in w.whens[o.w].open
    ensures WhenInv(Enter(w, o, v)) && EnteredQuietly(w, Enter(w, o, v))
  {
    EnterGrows(w, o, v);
    if o.Collect? { CollectRecord(w, d, o.w, o.i, v); } else { EnterFrame(w, d, k, o, v); }
    hide WCellOk, WFrameOk, StatusOf, StatusAt;
    var u := Enter(w, o, v);
    forall i: nat | i < |u.cells| ensures WCellOk(u, i) { WCellGrows(w, u, i); }
    forall f | f in u.stack ensures WFrameOk(u, f) {
      if f in w.stack { WFrameGrows(w, u, f); }
      else { assert u.stack == [u.stack[0]] + w.stack; }
    }
    forall x: nat ensures RecordOk(u, x) {
      if x < |w.whens| && u.whens[x] == w.whens[x] { assert RecordOk(w, x); RecordGrows(w, u, x); }
      else if x < |w.whens| && o.CollectProgress? { NotesRecord(w, o.w, o.i, v); }
    }
  }

  lemma NotesRecord(w: World, x: nat, i: nat, v: Val)
    requires RecordOk(w, x) && x < |w.whens|
    ensures RecordOk(Enter(w, CollectProgress(x, i), v), x)
  {
    hide StatusOf;
    var u := Enter(w, CollectProgress(x, i), v);
    forall j: nat ensures Counted(u, u.whens[x], j) { assert Counted(w, w.whens[x], j); }
  }

  lemma EnterTokens(w: World, d: nat, k: Kind, o: Observer, v: Val, x: nat, i: nat)
    requires WObsOk(w, d, k, o) && TokenOk(w, x, i, Transit(k, Some(o), x, i))
    requires EnteredQuietly(w, Enter(w, o, v)) && RecordOk(w, x)
    ensures TokenOk(Enter(w, o, v), x, i, 0)
  {
    hide Due, StatusOf, WFrameOk, Counted;
    EnterGrows(w, o, v);
    var u := Enter(w, o, v);
    QuietWeight(w, u, x, i);
    if x < |w.whens| && i < |w.whens[x].args| {
      assert u.whens[x].args == w.whens[x].args;
      assert DueWeight(u, x, i) == DueWeight(w, x, i);
      assert Lost(u, u.whens[x].args[i]) == Lost(w, w.whens[x].args[i]);
      if o == Collect(x, i) {
        assert u.whens[x].open == w.whens[x].open - {i};
      } else {
        assert i in u.whens[x].open <==> i in w.whens[x].open;
        assert Transit(k, Some(o), x, i) == 0;
      }
    }
  }

  // ----- the operation as a whole -----

  lemma ApplySplits(w: World, d: nat, k: Kind, r: (Dfd, Option<Observer>))
    requires d < |w.cells|
    ensures Apply(w, d, k, r) == if r.1.None? then Suspended(w, d, k, r)
                                 else Enter(Suspended(w, d, k, r), r.1.value, Argument(r.0, k))
  {
  }

  lemma TokenMeansOpen(w: World, x: nat, i: nat)
    requires TokenOk(w, x, i, 1) && x < |w.whens| && i < |w.whens[x].args|
    ensures i in w.whens[x].open
  {
  }

  lemma InvRecord(w: World, x: nat)
    requires WhenInv(w)
    ensures RecordOk(w, x)
  {
  }

  lemma ApplyWhen(w: World, d: nat, k: Kind, r: (Dfd, Option<Observer>), o: Option<Observer>)
    requires WhenInv(w) && TokensOk(w, k, o)
    requires WOpOk(w, d, k, r, o) && ConservesAll(w.cells[d].d, k, r, o)
    requires Effect(w.cells[d].d, k, r, InCallback(d, k) in w.stack)
    ensures WhenInv(Apply(w, d, k, r)) && TokensOk(Apply(w, d, k, r), Progress, None)
  {
    SuspendedInv(w, d, k, r, o);
    hide DInv, StatusOf, Due, WhenInv, Effect, OnlyDue, TokenOk, Conserves, Argument, Enter, Apply;
    var m := Suspended(w, d, k, r);
    ApplySplits(w, d, k, r);
    forall x: nat, i: nat
      ensures TokenOk(m, x, i, Transit(k, r.1, x, i))
    {
      assert TokenOk(w, x, i, Transit(k, o, x, i));
      SuspendedTokens(w, d, k, r, o, x, i);
    }
    if r.1.Some? {
      var v := Argument(r.0, k);
      if r.1.value.Collect? {
        assert Transit(k, r.1, r.1.value.w, r.1.value.i) == 1;
        assert TokenOk(m, r.1.value.w, r.1.value.i, 1);
        TokenMeansOpen(m, r.1.value.w, r.1.value.i);
      }
      EnterInv(m, d, k, r.1.value, v);
      forall x: nat, i: nat
        ensures TokenOk(Enter(m, r.1.value, v), x, i, Transit(Progress, None, x, i))
      {
        assert RecordOk(m, x) by { InvRecord(m, x); }
        EnterTokens(m, d, k, r.1.value, v, x, i);
      }
    } else {
      forall x: nat, i: nat
        ensures TokenOk(m, x, i, Transit(Progress, None, x, i))
      {
        assert Transit(k, r.1, x, i) == 0;
        assert TokenOk(m, x, i, Transit(k, r.1, x, i));
      }
    }
  }

  lemma OldMasters(w: World)
    requires WhenInv(w)
    ensures forall t: nat :: IsWhen(w, t) ==> w.cells[t].origin.w < |w.whens|
  {
    forall t: nat | IsWhen(w, t) ensures w.cells[t].origin.w < |w.whens| { assert WCellOk(w, t); }
  }
}
