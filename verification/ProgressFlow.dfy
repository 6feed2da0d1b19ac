/**
 Where the values come from that derived promises, masters of `when` and progress
 handlers are given, for every run of the most general client.
 */
module ProgressFlow {
  import opened Prelude
  import opened Observers
  import opened Deferred
  import opened DeferredRuns
  import opened DeferredEffects
  import opened Notifications
  import opened Promises
  import opened PromiseShape
  import opened Then
  import opened Countdown
  import opened WhenOutcome
  import opened WhenOrder

  /** The notifications that d has accepted. */
  function Heard(w: World, d: nat): seq<Val> {
    if d < |w.cells| then w.cells[d].d.progress.list.asked else []
  }

  /** A handler of t answered with the promise p. */
  ghost predicate Gave(w: World, t: nat, p: nat) {
    exists c :: c in w.calls && c.h.target == t && c.ret == Promise(p)
  }

  /** The three sources of a notification of a derived promise t. */
  ghost predicate HeardFrom(w: World, t: nat, v: Val) {
    && IsThen(w, t)
    && (|| (FnAt(w, t, Progress).None? && v in Heard(w, Src(w, t)))
        || (exists c :: c in w.calls && c.h.target == t && c.h.kind == Progress && c.ret == Plain(v))
        || (exists p: nat :: Gave(w, t, p) && v in Heard(w, p)))
  }

  /** What `when` may report for the argument a: nothing yet, or what that promise was notified with. */
  ghost predicate NoteOk(w: World, a: Arg, v: Val) {
    v == Undefined || (a.Promise? && v in Heard(w, a.id))
  }

  ghost predicate NotesOk(w: World, args: seq<Arg>, vs: seq<Val>) {
    |vs| == |args| && forall i :: 0 <= i < |vs| ==> NoteOk(w, args[i], vs[i])
  }

  /** v may be a notification of d. */
  ghost predicate Notable(w: World, d: nat, v: Val) {
    && (IsThen(w, d) ==> HeardFrom(w, d, v))
    && (IsWhen(w, d) ==> w.cells[d].origin.w < |w.whens| && v.Values? && NotesOk(w, w.whens[w.cells[d].origin.w].args, v.vs))
  }

  // ----- the invariant -----

  /** o may be on the progress side of d. */
  ghost predicate PObs(w: World, d: nat, o: Observer) {
    match o
    case Forward(t, k) => k == Progress && IsThen(w, t) && ((Src(w, t) == d && FnAt(w, t, k).None?) || Gave(w, t, d))
    case Handle(t, k, fn) => k == Progress && IsThen(w, t) && Src(w, t) == d && FnAt(w, t, k) == Some(fn)
    case CollectProgress(x, i) => x < |w.whens| && i < |w.whens[x].args| && w.whens[x].args[i] == Promise(d)
    case Collect(_, _) => false
    case User(_) => true
  }

  /** Entered from the done or fail side k, o notifies nobody. */
  predicate Silent(k: Kind, o: Observer) {
    match o
    case Forward(_, k1) => k1 == k
    case Handle(_, k1, _) => k1 == k
    case CollectProgress(_, _) => false
    case _ => true
  }

  ghost predicate NObs(w: World, d: nat, k: Kind, o: Observer) {
    if k == Progress then PObs(w, d, o) else Silent(k, o)
  }

  /** The progress handler at work, or having worked, was given a notification of its source. */
  ghost predicate NHandling(w: World, h: Handling) {
    h.kind == Progress ==> IsThen(w, h.target) && FnAt(w, h.target, Progress) == Some(h.fn) && h.arg in Heard(w, Src(w, h.target))
  }

  ghost predicate NAct(w: World, a: Act) {
    match a
    case GFire(t, k, v) => k == Progress ==> t < |w.cells| && Notable(w, t, v)
    case GAdd(d, k, o) => NObs(w, d, k, o)
    case GVisit(_, _) => true
  }

  ghost predicate NFrame(w: World, f: Frame) {
    match f
    case UserCode(h) => h.Some? ==> NHandling(w, h.value)
    case Glue(acts) => forall a :: a in acts ==> NAct(w, a)
    case InCallback(_, _) => true
  }

  ghost predicate NRecord(w: World, x: nat) {
    x < |w.whens| ==>
      var c := w.whens[x];
      NotesOk(w, c.args, c.notes) && IsWhen(w, c.master) && w.cells[c.master].origin.w == x
  }

  ghost predicate NCell(w: World, d: nat)
    requires d < |w.cells|
  {
    && Sound(w.cells[d].d)
    && (forall k, o {:trigger o in Due(w.cells[d].d, k)} :: k != Progress && o in Due(w.cells[d].d, k) ==> Silent(k, o))
    && (forall o :: o in w.cells[d].d.progress.added ==> PObs(w, d, o))
    && (forall v :: v in Heard(w, d) ==> Notable(w, d, v))
  }

  ghost predicate NInv(w: World) {
    && (forall d: nat :: d < |w.cells| ==> NCell(w, d))
    && (forall f :: f in w.stack ==> NFrame(w, f))
    && (forall c :: c in w.calls ==> NHandling(w, c.h))
    && (forall x: nat :: NRecord(w, x))
  }

  // ----- all of this survives growth -----

  ghost predicate Extends(w: World, u: World) {
    Grows(w, u) && forall d: nat :: Heard(w, d) <= Heard(u, d)
  }

  lemma StillHeard(w: World, u: World, d: nat, v: Val)
    requires Extends(w, u) && v in Heard(w, d)
    ensures v in Heard(u, d)
  {
    assert Heard(w, d) <= Heard(u, d);
  }

  lemma GaveGrows(w: World, u: World, t: nat, p: nat)
    requires Extends(w, u) && Gave(w, t, p)
    ensures Gave(u, t, p)
  {
    var c :| c in w.calls && c.h.target == t && c.ret == Promise(p);
    assert c in u.calls;
  }

  lemma HeardFromGrows(w: World, u: World, t: nat, v: Val)
    requires Extends(w, u) && HeardFrom(w, t, v)
    ensures HeardFrom(u, t, v)
  {
    hide Heard, StatusAt;
    if FnAt(w, t, Progress).None? && v in Heard(w, Src(w, t)) {
      StillHeard(w, u, Src(w, t), v);
    } else if c :| c in w.calls && c.h.target == t && c.h.kind == Progress && c.ret == Plain(v) {
      assert c in u.calls;
    } else {
      var p: nat :| Gave(w, t, p) && v in Heard(w, p);
      GaveGrows(w, u, t, p);
      StillHeard(w, u, p, v);
    }
  }

  lemma NotesGrow(w: World, u: World, args: seq<Arg>, vs: seq<Val>)
    requires Extends(w, u) && NotesOk(w, args, vs)
    ensures NotesOk(u, args, vs)
  {
    hide Heard;
    forall i | 0 <= i < |vs| ensures NoteOk(u, args[i], vs[i]) {
      if vs[i] != Undefined { StillHeard(w, u, args[i].id, vs[i]); }
    }
  }

  lemma NotableGrows(w: World, u: World, d: nat, v: Val)
    requires Extends(w, u) && d < |w.cells| && Notable(w, d, v)
    ensures Notable(u, d, v)
  {
    hide Heard, HeardFrom, NotesOk, StatusAt;
    if IsThen(w, d) { HeardFromGrows(w, u, d, v); }
    if IsWhen(w, d) { NotesGrow(w, u, w.whens[w.cells[d].origin.w].args, v.vs); }
  }

  lemma NObsGrows(w: World, u: World, d: nat, k: Kind, o: Observer)
    requires Extends(w, u) && NObs(w, d, k, o)
    ensures NObs(u, d, k, o)
  {
    hide Heard, StatusAt;
    if k == Progress && o.Forward? && Gave(w, o.target, d) { GaveGrows(w, u, o.target, d); }
  }

  lemma NHandlingGrows(w: World, u: World, h: Handling)
    requires Extends(w, u) && NHandling(w, h)
    ensures NHandling(u, h)
  {
    hide Heard, StatusAt;
    if h.kind == Progress { StillHeard(w, u, Src(w, h.target), h.arg); }
  }

  lemma NActGrows(w: World, u: World, a: Act)
    requires Extends(w, u) && NAct(w, a)
    ensures NAct(u, a)
  {
    hide Heard, Notable, NObs, StatusAt;
    match a
    case GFire(t, k, v) => if k == Progress { NotableGrows(w, u, t, v); }
    case GAdd(d, k, o) => NObsGrows(w, u, d, k, o);
    case GVisit(_, _) =>
  }

  lemma NFrameGrows(w: World, u: World, f: Frame)
    requires Extends(w, u) && NFrame(w, f)
    ensures NFrame(u, f)
  {
    hide Heard, NAct, NHandling, StatusAt;
    match f
    case UserCode(h) => if h.Some? { NHandlingGrows(w, u, h.value); }
    case Glue(acts) => forall a | a in acts ensures NAct(u, a) { NActGrows(w, u, a); }
    case InCallback(_, _) =>
  }

  lemma NRecordGrows(w: World, u: World, x: nat)
    requires Extends(w, u) && x < |w.whens| && NRecord(w, x) && u.whens[x].notes == w.whens[x].notes
    ensures NRecord(u, x)
  {
    hide Heard, NotesOk, StatusAt;
    NotesGrow(w, u, w.whens[x].args, w.whens[x].notes);
  }

  /** A cell whose Deferred did not change. */
  lemma NCellGrows(w: World, u: World, d: nat)
    requires Extends(w, u) && d < |w.cells| && NCell(w, d) && u.cells[d] == w.cells[d]
    ensures NCell(u, d)
  {
    hide Sound, Due, PObs, Notable, Silent, StatusAt;
    forall o | o in w.cells[d].d.progress.added ensures PObs(u, d, o) { NObsGrows(w, u, d, Progress, o) by { assert NObs(w, d, Progress, o); } }
    forall v | v in Heard(u, d) ensures Notable(u, d, v) { NotableGrows(w, u, d, v); }
  }

  lemma CallsGrow(w: World, u: World)
    requires Extends(w, u) && forall c :: c in w.calls ==> NHandling(w, c.h)
    ensures forall c :: c in w.calls ==> NHandling(u, c.h)
  {
    hide NHandling, Extends;
    forall c | c in w.calls ensures NHandling(u, c.h) { NHandlingGrows(w, u, c.h); }
  }

  /** Only frames were pushed. */
  lemma SameCells(w: World, u: World)
    requires Extends(w, u) && u.cells == w.cells && u.calls == w.calls && |u.whens| == |w.whens| && NInv(w)
    requires forall x: nat :: x < |w.whens| ==> u.whens[x].notes == w.whens[x].notes || NRecord(u, x)
    requires forall f :: f in u.stack ==> f in w.stack || NFrame(u, f)
    ensures NInv(u)
  {
    hide NCell, NFrame, NHandling, NRecord, Heard, StatusAt;
    forall d: nat | d < |u.cells| ensures NCell(u, d) { NCellGrows(w, u, d); }
    forall f | f in u.stack ensures NFrame(u, f) { if f in w.stack { NFrameGrows(w, u, f); } }
    CallsGrow(w, u);
    forall x: nat ensures NRecord(u, x) {
      if x < |w.whens| { if u.whens[x].notes == w.whens[x].notes { NRecordGrows(w, u, x); } }
      else { NoNRecord(u, x); }
    }
  }

  lemma NoNRecord(u: World, x: nat)
    requires x >= |u.whens|
    ensures NRecord(u, x)
  {
  }


  // ----- one operation on one Deferred -----

  /** The operation on list k of d that gave r is legitimate; v: its notification, o: the observer it registered. */
  ghost predicate NOp(w: World, d: nat, k: Kind, r: (Dfd, Option<Observer>), v: Option<Val>, o: Option<Observer>) {
    && d < |w.cells|
    && Hears(w.cells[d].d, k, r, v)
    && OnlyDue(w.cells[d].d, k, r, o)
    && (o.Some? ==> NObs(w, d, k, o.value))
    && (v.Some? ==> Notable(w, d, v.value))
  }

  lemma UpdatedNCell(w: World, u: World, d: nat, k: Kind, r: (Dfd, Option<Observer>), v: Option<Val>, o: Option<Observer>)
    requires NOp(w, d, k, r, v, o) && NCell(w, d) && Extends(w, u)
    requires u.cells == w.cells[d := w.cells[d].(d := r.0)]
    ensures NCell(u, d)
    ensures r.1.Some? ==> NObs(w, d, k, r.1.value) && NObs(u, d, k, r.1.value)
  {
    hide Sound, Due, Notable, PObs, Silent, StatusAt;
    forall q, x | q != Progress && x in Due(r.0, q) ensures Silent(q, x) {
      if x !in Due(w.cells[d].d, q) { NewlyDue(w.cells[d].d, k, r, o, q, x); }
    }
    forall x | x in r.0.progress.added ensures PObs(u, d, x) {
      assert NObs(w, d, Progress, x);
      NObsGrows(w, u, d, Progress, x);
    }
    forall x | x in Heard(u, d) ensures Notable(u, d, x) {
      assert x in Heard(w, d) || v == Some(x);
      NotableGrows(w, u, d, x);
    }
    if r.1.Some? {
      assert NObs(w, d, k, r.1.value);
      NObsGrows(w, u, d, k, r.1.value);
    }
  }

  lemma ForwardedNote(u: World, d: nat, t: nat, v: Val)
    requires PObs(u, d, Forward(t, Progress)) && v in Heard(u, d)
    ensures Notable(u, t, v)
  {
  }

  /** One more argument of `when` has something to report. */
  lemma CollectedNote(u: World, d: nat, x: nat, i: nat, v: Val)
    requires PObs(u, d, CollectProgress(x, i)) && v in Heard(u, d) && NRecord(u, x)
    ensures var e := Enter(u, CollectProgress(x, i), v);
      && x < |e.whens| == |u.whens| && e.stack == [Glue([GFire(u.whens[x].master, Progress, Values(e.whens[x].notes))])] + u.stack
      && NRecord(e, x) && Notable(e, u.whens[x].master, Values(e.whens[x].notes))
      && forall y :: 0 <= y < |u.whens| && y != x ==> e.whens[y] == u.whens[y]
  {
    var e := Enter(u, CollectProgress(x, i), v);
    assert forall j: nat :: Heard(e, j) == Heard(u, j);
    hide Heard;
    var c := u.whens[x];
    assert e.whens[x] == c.(notes := c.notes[i := v]);
    forall j | 0 <= j < |c.args| ensures NoteOk(e, c.args[j], e.whens[x].notes[j]) { assert NoteOk(u, c.args[j], c.notes[j]); }
  }

  lemma EnterExtends(u: World, o: Observer, v: Val)
    ensures Extends(u, Enter(u, o, v)) && Enter(u, o, v).cells == u.cells
  {
    EnterPushes(u, o, v);
    hide Grows;
  }

  /** The frame pushed on entering an observer that was legitimately registered. */
  lemma EnteredNFrame(u: World, d: nat, k: Kind, o: Observer, v: Val)
    requires NObs(u, d, k, o) && (forall x: nat :: NRecord(u, x)) && (k == Progress ==> v in Heard(u, d))
    ensures var e := Enter(u, o, v);
      && (e.stack != u.stack ==> NFrame(e, e.stack[0]))
      && forall x: nat :: x < |u.whens| ==> e.whens[x].notes == u.whens[x].notes || NRecord(e, x)
  {
    EnterExtends(u, o, v);
    hide Heard, StatusAt, Notable;
    match o
    case User(_) =>
    case Forward(t, k1) =>
      if k == Progress {
        ForwardedNote(u, d, t, v);
        NotableGrows(u, Enter(u, o, v), t, v);
      }
    case Handle(t, k1, fn) => NHandlingGrows(u, Enter(u, o, v), Handling(t, k1, fn, v));
    case Collect(x, i) =>
    case CollectProgress(x, i) => CollectedNote(u, d, x, i, v);
  }


  lemma UpdateExtends(w: World, d: nat, k: Kind, r: (Dfd, Option<Observer>), v: Option<Val>)
    requires d < |w.cells| && Hears(w.cells[d].d, k, r, v)
    requires Effect(w.cells[d].d, k, r, InCallback(d, k) in w.stack)
    ensures Extends(w, w.(cells := w.cells[d := w.cells[d].(d := r.0)]))
  {
    UpdateGrows(w, d, k, r);
    hide Sound, Effect, Grows;
  }

  lemma ApplyNInv(w: World, d: nat, k: Kind, r: (Dfd, Option<Observer>), v: Option<Val>, o: Option<Observer>)
    requires NInv(w) && NOp(w, d, k, r, v, o)
    requires Effect(w.cells[d].d, k, r, InCallback(d, k) in w.stack)
    ensures NInv(Apply(w, d, k, r)) && Extends(w, Apply(w, d, k, r))
  {
    hide Sound, DInv, StatusOf, Firing, Due, NCell, NFrame, NRecord, NHandling, OnlyDue, Effect, Grows, Enter;
    var w1 := w.(cells := w.cells[d := w.cells[d].(d := r.0)]);
    UpdateExtends(w, d, k, r, v);
    UpdatedNCell(w, w1, d, k, r, v, o);
    SameRest(w, w1, d);
    if r.1.Some? {
      var a := Argument(r.0, k);
      var w2 := Push(w1, InCallback(d, k));
      EntersNInv(w1, w2, d, k, r.1.value, a);
      ExtendsTransitive(w, w2, Enter(w2, r.1.value, a)) by { ExtendsSelf(w1, w2); ExtendsTransitive(w, w1, w2); }
    }
  }

  /** Everything but cell d. */
  lemma SameRest(w: World, u: World, d: nat)
    requires NInv(w) && Extends(w, u) && d < |w.cells| && NCell(u, d)
    requires |u.cells| == |w.cells| && forall i: nat :: i < |w.cells| && i != d ==> u.cells[i] == w.cells[i]
    requires u.whens == w.whens && u.calls == w.calls && u.stack == w.stack
    ensures NInv(u)
  {
    hide NCell, NFrame, NRecord, NHandling, Extends;
    forall i: nat | i < |u.cells| ensures NCell(u, i) { if i != d { NCellGrows(w, u, i); } }
    forall f | f in u.stack ensures NFrame(u, f) { NFrameGrows(w, u, f); }
    CallsGrow(w, u);
    forall x: nat ensures NRecord(u, x) { if x < |w.whens| { NRecordGrows(w, u, x); } else { NoNRecord(u, x); } }
  }

  lemma EntersNInv(w1: World, w2: World, d: nat, k: Kind, o: Observer, v: Val)
    requires NInv(w1) && d < |w1.cells| && w2 == Push(w1, InCallback(d, k)) && NObs(w1, d, k, o)
    requires k == Progress ==> v in Heard(w1, d)
    ensures NInv(Enter(w2, o, v)) && Extends(w2, Enter(w2, o, v))
  {
    ExtendsSelf(w1, w2);
    assert NFrame(w2, InCallback(d, k)) && Heard(w2, d) == Heard(w1, d);
    hide Heard, NFrame, NRecord, NHandling, NCell, Extends, NObs, Enter;
    SameCells(w1, w2);
    NObsGrows(w1, w2, d, k, o);
    var u := Enter(w2, o, v);
    EnterPushes(w2, o, v);
    EnterExtends(w2, o, v);
    EnteredNFrame(w2, d, k, o, v);
    forall f | f in u.stack ensures f in w2.stack || NFrame(u, f) {
      if u.stack != w2.stack { assert u.stack == [u.stack[0]] + w2.stack; }
    }
    SameCells(w2, u);
  }

  lemma ExtendsSelf(w: World, u: World)
    requires u.cells == w.cells && u.calls == w.calls && u.whens == w.whens
    ensures Extends(w, u)
  {
  }

  lemma ExtendsTransitive(a: World, b: World, c: World)
    requires Extends(a, b) && Extends(b, c)
    ensures Extends(a, c)
  {
    GrowsTransitive(a, b, c);
    hide Grows, Heard;
    forall d: nat ensures Heard(a, d) <= Heard(c, d) { assert Heard(a, d) <= Heard(b, d) && Heard(b, d) <= Heard(c, d); }
  }


  // ----- every step -----

  lemma ActNInv(w: World, a: Act)
    requires Shape(w) && CellsOk(w) && NInv(w) && NAct(w, a)
    ensures NInv(DoAct(w, a)) && Extends(w, DoAct(w, a))
  {
    hide Sound, DInv, StatusOf, Firing, Due, NFrame, NRecord, NHandling, OnlyDue, KeepsDue, FireD, AddD, ListsWf, Effect, Grows, Notable, NObs, Apply;
    ExtendsSelf(w, w);
    match a
    case GFire(t, k, v) =>
      if t < |w.cells| {
        var d := w.cells[t].d;
        CellSound(w, t);
        FlagMatches(w, t, k);
        FireHears(d, k, v);
        FireEffect(d, k, v);
        FireTraffic(d, k, v);
        hide NCell, Hears;
        ApplyNInv(w, t, k, FireD(d, k, v), if k == Progress then Some(v) else None, None);
      }
    case GAdd(t, k, o) =>
      if t < |w.cells| {
        var d := w.cells[t].d;
        CellSound(w, t);
        FlagMatches(w, t, k);
        AddHears(d, k, o);
        AddEffect(d, k, o);
        AddTraffic(d, k, o);
        hide NCell, Hears;
        ApplyNInv(w, t, k, AddD(d, k, o), None, Some(o));
      }
    case GVisit(x, i) => VisitNInv(w, x, i);
  }

  lemma CellSound(w: World, d: nat)
    requires NInv(w) && d < |w.cells|
    ensures Sound(w.cells[d].d)
  {
    assert NCell(w, d);
  }

  lemma FlagMatches(w: World, d: nat, k: Kind)
    requires Shape(w) && d < |w.cells|
    ensures Firing(w.cells[d].d, k) == (InCallback(d, k) in w.stack) && DInv(w.cells[d].d)
  {
    hide DInv, Firing;
  }

  lemma VisitNInv(w: World, x: nat, i: nat)
    requires NInv(w)
    ensures NInv(Visit(w, x, i)) && Extends(w, Visit(w, x, i))
  {
    var u := Visit(w, x, i);
    assert Extends(w, u) by { hide StatusOf; }
    hide DInv, StatusOf, NCell, Extends, Heard, NHandling, NRecord, StatusAt;
    if u.stack != w.stack {
      assert u.stack == [u.stack[0]] + w.stack;
      assert NFrame(u, u.stack[0]) by { hide Notable; }
    }
    SameCells(w, u);
  }

  /** A fresh Deferred has heard nothing and has nobody to call. */
  lemma AllocateNInv(w: World, origin: Origin, whens: seq<When>)
    requires NInv(w) && w.whens <= whens && |whens| <= |w.whens| + 1
    ensures var u := w.(cells := w.cells + [Cell(NewDfd(), origin)], whens := whens);
      (forall x: nat :: x >= |w.whens| ==> NRecord(u, x)) ==> NInv(u) && Extends(w, u)
  {
    NewSound();
    FreshDue();
    var u := w.(cells := w.cells + [Cell(NewDfd(), origin)], whens := whens);
    assert Extends(w, u) by { hide StatusOf, NewDfd; }
    hide Sound, StatusOf, Due, NFrame, NewDfd, PObs, Notable, Silent, NHandling, Extends, NRecord;
    if forall x: nat :: x >= |w.whens| ==> NRecord(u, x) {
      forall d: nat | d < |u.cells| ensures NCell(u, d) {
        if d < |w.cells| { hide NCell; NCellGrows(w, u, d); }
      }
      forall f | f in u.stack ensures NFrame(u, f) { NFrameGrows(w, u, f); }
      CallsGrow(w, u);
      forall x: nat ensures NRecord(u, x) { if x < |w.whens| { NRecordGrows(w, u, x); } }
    }
  }

  lemma NoNewRecords(u: World)
    ensures forall x: nat :: x >= |u.whens| ==> NRecord(u, x)
  {
  }

  lemma ActionNInv(w: World, a: Action)
    requires Shape(w) && CellsOk(w) && NInv(w)
    ensures NInv(DoAction(w, a)) && Extends(w, DoAction(w, a))
  {
    hide Sound, DInv, StatusOf, Firing, Due, NFrame, NRecord, NHandling, OnlyDue, KeepsDue, FireD, AddD, ListsWf, Effect, Grows, NewDfd, NObs, Apply;
    ExtendsSelf(w, w);
    match a
    case MakeDeferred =>
      AllocateNInv(w, Public, w.whens);
      NoNewRecords(w.(cells := w.cells + [Cell(NewDfd(), Public)]));
    case Settle(t, k, v) =>
      if t < |w.cells| && w.cells[t].origin == Public {
        var d := w.cells[t].d;
        CellSound(w, t);
        assert Notable(w, t, v);
        FlagMatches(w, t, k);
        FireHears(d, k, v);
        FireEffect(d, k, v);
        FireTraffic(d, k, v);
        hide NCell, Hears, Notable;
        ApplyNInv(w, t, k, FireD(d, k, v), if k == Progress then Some(v) else None, None);
      }
    case Listen(t, k, n) =>
      if t < |w.cells| {
        var d := w.cells[t].d;
        CellSound(w, t);
        assert NObs(w, t, k, User(n)) by { UserSilent(w, t, k, n); }
        FlagMatches(w, t, k);
        AddHears(d, k, User(n));
        AddEffect(d, k, User(n));
        AddTraffic(d, k, User(n));
        hide NCell, Hears, Notable;
        ApplyNInv(w, t, k, AddD(d, k, User(n)), None, Some(User(n)));
      }
    case Then(d, fns) => if d < |w.cells| { StartThenNInv(w, d, fns); }
    case WhenAll(args) =>
      if (forall i :: 0 <= i < |args| ==> ValidArg(w, args[i])) && !(|args| == 1 && args[0].Promise?) {
        StartWhenNInv(w, args);
      }
  }

  lemma UserSilent(w: World, d: nat, k: Kind, n: nat)
    ensures NObs(w, d, k, User(n))
  {
  }

  lemma StartThenNInv(w: World, d: nat, fns: Fns)
    requires NInv(w) && CellsOk(w) && d < |w.cells|
    ensures NInv(DoAction(w, Then(d, fns))) && Extends(w, DoAction(w, Then(d, fns)))
  {
    AllocateNInv(w, ThenOf(d, fns), w.whens);
    var w1 := w.(cells := w.cells + [Cell(NewDfd(), ThenOf(d, fns))]);
    NoNewRecords(w1);
    hide DInv, StatusOf, Due, NCell, NRecord, NewDfd, ListsWf, NHandling, Notable;
    var u := DoAction(w, Then(d, fns));
    assert NFrame(u, u.stack[0]);
    ExtendsSelf(w1, u);
    ExtendsTransitive(w, w1, u);
    hide NFrame, Extends;
    SameCells(w1, u);
  }

  lemma NewRecord(w: World, w1: World, args: seq<Arg>)
    requires !(|args| == 1 && args[0].Promise?)
    requires w1 == w.(cells := w.cells + [Cell(NewDfd(), WhenOf(|w.whens|))], whens := StartWhen(w, args).whens)
    ensures w1.cells == StartWhen(w, args).cells
    ensures forall x: nat :: x >= |w.whens| ==> NRecord(w1, x)
  {
    hide NewDfd, Heard;
  }

  lemma StartWhenNInv(w: World, args: seq<Arg>)
    requires NInv(w) && !(|args| == 1 && args[0].Promise?)
    ensures NInv(StartWhen(w, args)) && Extends(w, StartWhen(w, args))
  {
    var u := StartWhen(w, args);
    var w1 := w.(cells := w.cells + [Cell(NewDfd(), WhenOf(|w.whens|))], whens := u.whens);
    NewRecord(w, w1, args);
    AllocateNInv(w, WhenOf(|w.whens|), u.whens);
    hide NInv, NewDfd, DInv, StatusOf, Due, NCell, NRecord, NHandling, Notable;
    assert NFrame(u, u.stack[0]);
    assert u.stack == [u.stack[0]] + w1.stack;
    ExtendsSelf(w1, u);
    ExtendsTransitive(w, w1, u);
    hide NFrame, Extends;
    SameCells(w1, u);
  }

  lemma ReturnNInv(w: World, h: Option<Handling>, ret: Arg)
    requires NInv(w) && w.stack != [] && w.stack[0] == UserCode(h) && (h.Some? ==> IsThen(w, h.value.target))
    ensures NInv(DoReturn(w, h, ret)) && Extends(w, DoReturn(w, h, ret))
  {
    var u := DoReturn(w, h, ret);
    assert Extends(w, u) by { hide StatusOf; }
    hide DInv, StatusOf, Due, NCell, Extends, NRecord, Heard, StatusAt;
    if |w.stack| > 1 && ValidArg(w, ret) {
      assert w.stack == [w.stack[0]] + w.stack[1..];
      if h.Some? {
        assert NFrame(w, w.stack[0]);
        NHandlingGrows(w, u, h.value);
        assert NFrame(u, Glue(AfterHandler(h.value, ret))) by { AnswerNFrame(w, u, h.value, ret); }
      }
      hide NFrame, NHandling;
      forall d: nat | d < |u.cells| ensures NCell(u, d) { NCellGrows(w, u, d); }
      forall f | f in u.stack ensures NFrame(u, f) { if f in w.stack { NFrameGrows(w, u, f); } }
      CallsGrow(w, u);
      forall x: nat ensures NRecord(u, x) { if x < |w.whens| { NRecordGrows(w, u, x); } else { NoNRecord(u, x); } }
    }
  }


  /** What the wrapper does with an answer is legitimate. */
  lemma AnswerNFrame(w: World, u: World, h: Handling, ret: Arg)
    requires NHandling(w, h) && Extends(w, u) && u.calls == w.calls + [HandlerCall(h, ret)]
    requires IsThen(w, h.target)
    ensures NFrame(u, Glue(AfterHandler(h, ret)))
  {
    assert HandlerCall(h, ret) in u.calls;
  }

  lemma StepNInv(w: World, c: Choice)
    requires Shape(w) && CellsOk(w) && ThenInv(w) && NInv(w)
    ensures NInv(Step(w, c)) && Extends(w, Step(w, c))
  {
    assert FrameOk(w, w.stack[0]);
    hide DInv, StatusAt, CellOk, MastersOk, NInv, ThenInv, Extends, FinishedD, Apply, DoAct, DoAction;
    match w.stack[0]
    case InCallback(t, k) =>
      CallbackNInv(w, t, k);
    case Glue(acts) =>
      if acts == [] { DroppedNInv(w); } else { GlueNInv(w, acts); }
    case UserCode(h) =>
      match c {
        case Act(a) => ActionNInv(w, a);
        case Return(ret) => ReturnNInv(w, h, ret);
      }
  }

  lemma DroppedNInv(w: World)
    requires NInv(w) && w.stack != []
    ensures NInv(w.(stack := w.stack[1..])) && Extends(w, w.(stack := w.stack[1..]))
  {
    hide NCell, NFrame, NRecord, NHandling, Extends;
    ExtendsSelf(w, w.(stack := w.stack[1..]));
    SameCells(w, w.(stack := w.stack[1..]));
  }

  lemma CallbackNInv(w: World, t: nat, k: Kind)
    requires Shape(w) && CellsOk(w) && NInv(w) && w.stack[0] == InCallback(t, k)
    ensures t < |w.cells|
    ensures var u := Apply(w.(stack := w.stack[1..]), t, k, FinishedD(w.cells[t].d, k)); NInv(u) && Extends(w, u)
  {
    var below := w.(stack := w.stack[1..]);
    PopShape(w);
    DroppedNInv(w);
    var d := w.cells[t].d;
    CellSound(w, t);
    FlagMatches(w, t, k);
    FinishedHears(d, k);
    FinishedEffect(d, k);
    FinishedTraffic(d, k);
    hide Sound, DInv, Hears, OnlyDue, KeepsDue, Effect, Apply, FinishedD, CellsOk, Shape, NInv, Extends;
    ApplyNInv(below, t, k, FinishedD(d, k), None, None);
    ExtendsTransitive(w, below, Apply(below, t, k, FinishedD(d, k)));
  }

  lemma GlueNInv(w: World, acts: seq<Act>)
    requires Shape(w) && CellsOk(w) && NInv(w) && w.stack[0] == Glue(acts) && acts != []
    ensures CellsOk(Push(w.(stack := w.stack[1..]), Glue(acts[1..])))
    ensures var u := DoAct(Push(w.(stack := w.stack[1..]), Glue(acts[1..])), acts[0]); NInv(u) && Extends(w, u)
  {
    var below := w.(stack := w.stack[1..]);
    var rest := Push(below, Glue(acts[1..]));
    assert NFrame(w, w.stack[0]);
    PopShape(w);
    PushShape(below, rest, -1, Done);
    TakeNAct(w, rest, acts);
    ExtendsSelf(w, rest);
    ExtendsSelf(below, rest);
    DroppedNInv(w);
    hide Sound, NCell, NFrame, NRecord, NHandling, Extends, Shape, DoAct;
    SameCells(below, rest);
    hide NInv;
    ActNInv(rest, acts[0]);
    ExtendsTransitive(w, rest, DoAct(rest, acts[0]));
  }

  lemma TakeNAct(w: World, rest: World, acts: seq<Act>)
    requires NFrame(w, Glue(acts)) && acts != [] && rest.cells == w.cells && rest.calls == w.calls && rest.whens == w.whens
    ensures NFrame(rest, Glue(acts[1..])) && NAct(rest, acts[0])
  {
    ExtendsSelf(w, rest);
    hide NAct, Extends;
    forall a | a in acts ensures NAct(rest, a) { NActGrows(w, rest, a); }
  }


  // ----- whole runs -----

  lemma StartNInv()
    ensures NInv(START)
  {
  }

  lemma {:induction false} RunNInv(w: World, choices: seq<Choice>)
    requires AllGood(w) && NInv(w)
    ensures AllGood(Run(w, choices)) && NInv(Run(w, choices)) && Extends(w, Run(w, choices))
    decreases |choices|
  {
    if choices == [] {
      ExtendsSelf(w, w);
    } else {
      StepNInv(w, choices[0]);
      StepAllGood(w, choices[0]);
      hide AllGood, NInv, Extends, Step;
      RunNInv(Step(w, choices[0]), choices[1..]);
      ExtendsTransitive(w, Step(w, choices[0]), Run(w, choices));
    }
  }

  /**
   In every run: whatever a derived promise t is notified with was notified on its
   source, if t has no progress handler, or is what such a handler answered, or was
   notified on a promise that a handler of t returned.
   */
  lemma NotificationsOfThen(choices: seq<Choice>, t: nat, v: Val)
    requires IsThen(Run(START, choices), t) && v in Heard(Run(START, choices), t)
    ensures HeardFrom(Run(START, choices), t, v)
  {
    StartAllGood();
    StartNInv();
    RunNInv(START, choices);
    var w := Run(START, choices);
    assert NCell(w, t);
  }

  /** In every run: a progress handler is only ever called with a notification of the source of its promise. */
  lemma HandlersHearTheSource(choices: seq<Choice>, c: HandlerCall)
    requires c in Run(START, choices).calls && c.h.kind == Progress
    ensures var w := Run(START, choices);
      IsThen(w, c.h.target) && FnAt(w, c.h.target, Progress) == Some(c.h.fn) && c.h.arg in Heard(w, Src(w, c.h.target))
  {
    StartAllGood();
    StartNInv();
    RunNInv(START, choices);
    assert NHandling(Run(START, choices), c.h);
  }

  /** In every run: the master of `when` reports, position by position, nothing or a notification of that promise. */
  lemma NotificationsOfWhen(choices: seq<Choice>, x: nat, v: Val)
    requires var w := Run(START, choices); x < |w.whens| && v in Heard(w, w.whens[x].master)
    ensures var w := Run(START, choices);
      v.Values? && |v.vs| == |w.whens[x].args|
      && forall i :: 0 <= i < |v.vs| ==> NoteOk(w, w.whens[x].args[i], v.vs[i])
  {
    StartAllGood();
    StartNInv();
    RunNInv(START, choices);
    var w := Run(START, choices);
    assert NRecord(w, x);
    assert NCell(w, w.whens[x].master);
  }
}
