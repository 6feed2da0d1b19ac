/** What one step does for progress: who accepts a notification, which callback is told, and what is about to be passed on. */
module ProgressSteps {
  import opened Prelude
  import opened Observers
  import opened Deferred
  import opened DeferredRuns
  import opened DeferredEffects
  import opened DeferredProgress
  import opened Notifications
  import opened Promises
  import opened PromiseShape
  import opened Then
  import opened ProgressFlow

  datatype Note = Note(to: nat, value: Val)

  datatype Telling = Telling(d: nat, obs: Observer, arg: Val)

  /** One step: the notification attempted, the progress callback called, the handler that returned. */
  datatype Beat = Beat(fired: Option<Note>, told: Option<Telling>, answered: Option<HandlerCall>)

  const REST := Beat(None, None, None)

  /** The progress callbacks that d has called. */
  function Told(w: World, d: nat): seq<(Observer, Val)> {
    if d < |w.cells| then Made(w.cells[d].d.progress.calls) else []
  }

  /** The notification that library code makes next. */
  function Hand(w: World): Option<Note> {
    if w.stack != [] && w.stack[0].Glue? && w.stack[0].acts != [] && w.stack[0].acts[0].GFire? && w.stack[0].acts[0].kind == Progress
    then Some(Note(w.stack[0].acts[0].target, w.stack[0].acts[0].arg)) else None
  }

  /** What is to be passed on: what the callback was told, the report of `when` it belongs to, or the handler's answer. */
  function PassedOn(u: World, b: Beat): Option<Note> {
    if b.told.Some? then
      match b.told.value.obs
      case Forward(t, _) => Some(Note(t, b.told.value.arg))
      case CollectProgress(x, _) => if x < |u.whens| then Some(Note(u.whens[x].master, Values(u.whens[x].notes))) else None
      case _ => None
    else if b.answered.Some? && b.answered.value.h.kind == Progress && b.answered.value.ret.Plain? then
      Some(Note(b.answered.value.h.target, b.answered.value.ret.v))
    else None
  }

  ghost predicate Accepts(w: World, b: Beat, t: nat) {
    b.fired.Some? && b.fired.value.to == t < |w.cells| && StatusAt(w, t).Waiting?
  }

  ghost predicate HeardBeat(w: World, u: World, b: Beat, t: nat) {
    Heard(u, t) == Heard(w, t) + if Accepts(w, b, t) then [b.fired.value.value] else []
  }

  ghost predicate ToldBeat(w: World, u: World, b: Beat, d: nat) {
    Told(u, d) == Told(w, d) + if b.told.Some? && b.told.value.d == d then [(b.told.value.obs, b.told.value.arg)] else []
  }

  ghost predicate NotesBeat(w: World, u: World, b: Beat, x: nat) {
    x < |w.whens| <= |u.whens| ==>
      var i := if b.told.Some? && b.told.value.obs.CollectProgress? && b.told.value.obs.w == x then b.told.value.obs.i else |w.whens[x].notes|;
      u.whens[x].notes == if i < |w.whens[x].notes| then w.whens[x].notes[i := b.told.value.arg] else w.whens[x].notes
  }

  ghost predicate Beats(w: World, u: World, b: Beat) {
    && Extends(w, u)
    && (forall t: nat :: HeardBeat(w, u, b, t))
    && (forall d: nat :: ToldBeat(w, u, b, d))
    && (forall x: nat :: NotesBeat(w, u, b, x))
    && (forall x :: |w.whens| <= x < |u.whens| ==> forall v :: v in u.whens[x].notes ==> v == Undefined)
    && u.calls == w.calls + (if b.answered.Some? then [b.answered.value] else [])
    && (b.told.Some? ==> b.answered.None? && b.told.value.d < |w.cells| && PObs(w, b.told.value.d, b.told.value.obs))
    && (b.answered.Some? ==> NHandling(u, b.answered.value.h))
    && Hand(u) == PassedOn(u, b)
  }

  // ----- notifications are made one at a time -----

  predicate NoFire(f: Frame) {
    f.Glue? ==> forall a :: a in f.acts ==> !a.GFire?
  }

  ghost predicate Calm(w: World) {
    forall f :: f in w.stack ==> NoFire(f)
  }

  /** Only the frame on top may be about to fire, and then it has nothing else to do. */
  ghost predicate Solo(w: World) {
    w.stack != [] ==>
      && (NoFire(w.stack[0]) || (w.stack[0].Glue? && |w.stack[0].acts| == 1))
      && forall f :: f in w.stack[1..] ==> NoFire(f)
  }

  lemma CalmHand(w: World)
    requires Calm(w)
    ensures Solo(w) && Hand(w).None?
  {
    if w.stack != [] {
      var f := w.stack[0];
      assert f in w.stack && NoFire(f);
      assert f.Glue? && f.acts != [] ==> f.acts[0] in f.acts;
      assert forall g :: g in w.stack[1..] ==> g in w.stack;
    }
  }

  lemma PushCalm(w: World, f: Frame)
    requires Calm(w)
    ensures NoFire(f) ==> Calm(Push(w, f))
    ensures f.Glue? && |f.acts| == 1 ==> Solo(Push(w, f))
  {
    assert Push(w, f).stack[1..] == w.stack;
  }

  /** Entering a progress callback. */
  lemma EnterBeat(w: World, d: nat, o: Observer, v: Val)
    requires Calm(w) && PObs(w, d, o) && forall x: nat :: NRecord(w, x)
    ensures var u, b := Enter(w, o, v), Beat(None, Some(Telling(d, o, v)), None);
      && Solo(u) && Hand(u) == PassedOn(u, b)
      && forall x: nat :: NotesBeat(w, u, b, x)
  {
    var u := Enter(w, o, v);
    hide Heard, StatusAt;
    match o
    case Forward(t, k) => PushCalm(w, Glue([GFire(t, k, v)]));
    case Handle(t, k, fn) => PushCalm(w, UserCode(Some(Handling(t, k, fn, v))));
    case CollectProgress(x, i) =>
      assert NRecord(w, x);
      PushCalm(w.(whens := u.whens), u.stack[0]);
    case User(_) => PushCalm(w, UserCode(None));
  }

  lemma EnterSilent(w: World, k: Kind, o: Observer, v: Val)
    requires Calm(w) && k != Progress && Silent(k, o)
    ensures var u := Enter(w, o, v);
      && Solo(u) && Hand(u).None? && forall x: nat :: NotesBeat(w, u, REST, x)
  {
    var u := Enter(w, o, v);
    if u.stack != w.stack {
      assert u.stack == [u.stack[0]] + w.stack;
      PushCalm(w.(whens := u.whens), u.stack[0]);
    } else {
      CalmHand(w);
    }
  }


  // ----- one operation on one Deferred -----

  function BeatOf(d: nat, k: Kind, r: (Dfd, Option<Observer>), v: Option<Val>): Beat {
    Beat(if v.Some? then Some(Note(d, v.value)) else None,
         if k == Progress && r.1.Some? then Some(Telling(d, r.1.value, Argument(r.0, k))) else None,
         None)
  }

  lemma {:induction false} CellBeats(w: World, u: World, d: nat, k: Kind, r: (Dfd, Option<Observer>), v: Option<Val>)
    requires d < |w.cells| && Hears(w.cells[d].d, k, r, v)
    requires u.cells == w.cells[d := w.cells[d].(d := r.0)]
    ensures forall t: nat :: HeardBeat(w, u, BeatOf(d, k, r, v), t)
    ensures forall t: nat :: ToldBeat(w, u, BeatOf(d, k, r, v), t)
  {
    hide Sound;
    var b := BeatOf(d, k, r, v);
    if b.told.Some? { MadeOne(w.cells[d].d.progress.calls, Call(r.1.value, Argument(r.0, Progress), w.cells[d].d.state)); }
    assert StatusAt(w, d).Waiting? <==> w.cells[d].d.state == Pending;
    forall t: nat ensures ToldBeat(w, u, b, t) {
      assert Told(w, t) + [] == Told(w, t);
    }
    forall t: nat ensures HeardBeat(w, u, b, t) {
      assert Heard(w, t) + [] == Heard(w, t);
    }
  }

  lemma ApplyBeats(w: World, d: nat, k: Kind, r: (Dfd, Option<Observer>), v: Option<Val>, o: Option<Observer>)
    requires NInv(w) && Calm(w) && NOp(w, d, k, r, v, o)
    requires Effect(w.cells[d].d, k, r, InCallback(d, k) in w.stack)
    ensures Solo(Apply(w, d, k, r)) && Beats(w, Apply(w, d, k, r), BeatOf(d, k, r, v))
  {
    hide Sound, DInv, StatusOf, Firing, Due, NCell, NFrame, NRecord, NHandling, OnlyDue, Effect, Grows, Enter, Hand, Calm, PassedOn, StatusAt, Told, Heard, NoFire;
    var w1 := w.(cells := w.cells[d := w.cells[d].(d := r.0)]);
    var u := Apply(w, d, k, r);
    ApplyNInv(w, d, k, r, v, o);
    if r.1.None? {
      CellBeats(w, u, d, k, r, v);
      QuietBeats(w, u, BeatOf(d, k, r, v));
    } else {
      UpdateExtends(w, d, k, r, v);
      UpdatedNCell(w, w1, d, k, r, v, o);
      SameRest(w, w1, d);
      var w2 := Push(w1, InCallback(d, k));
      PushCallback(w, w1, d, k);
      ExtendsSelf(w1, w2);
      SameNRecords(w1, w2);
      NObsGrows(w1, w2, d, k, r.1.value);
      var a := Argument(r.0, k);
      EnterExtends(w2, r.1.value, a);
      EnterPushes(w2, r.1.value, a);
      CellBeats(w, u, d, k, r, v);
      EnteredBeats(w2, u, d, k, r.1.value, a);
      hide Hears;
      AsFromW(w, w2, u, d, k, r.1.value, a, BeatOf(d, k, r, v));
    }
  }

  lemma PushCallback(w: World, w1: World, d: nat, k: Kind)
    requires Calm(w) && w1.stack == w.stack
    ensures Calm(Push(w1, InCallback(d, k)))
  {
  }

  lemma SameNRecords(w1: World, w2: World)
    requires NInv(w1) && Extends(w1, w2) && w2.whens == w1.whens
    ensures forall x: nat :: NRecord(w2, x)
  {
    hide NRecord, NCell, NHandling, NFrame, Extends;
    forall x: nat ensures NRecord(w2, x) { if x < |w1.whens| { NRecordGrows(w1, w2, x); } else { NoNRecord(w2, x); } }
  }

  /** Nobody was entered. */
  lemma QuietBeats(w: World, u: World, b: Beat)
    requires Calm(w) && Extends(w, u) && u.stack == w.stack && u.whens == w.whens && u.calls == w.calls
    requires b.told.None? && b.answered.None?
    requires (forall t: nat :: HeardBeat(w, u, b, t)) && (forall t: nat :: ToldBeat(w, u, b, t))
    ensures Solo(u) && Beats(w, u, b)
  {
    CalmHand(u);
    hide Extends, Heard, Told, NoFire;
  }

  function Entry(k: Kind, t: Telling): Beat {
    if k == Progress then Beat(None, Some(t), None) else REST
  }

  /** What the frames and closures of `when` show of the callback entered. */
  ghost predicate Entered(w2: World, u: World, k: Kind, t: Telling) {
    && Solo(u) && Hand(u) == PassedOn(u, Entry(k, t)) && forall x: nat :: NotesBeat(w2, u, Entry(k, t), x)
  }

  lemma EnteredBeats(w2: World, u: World, d: nat, k: Kind, o: Observer, v: Val)
    requires Calm(w2) && NObs(w2, d, k, o) && (forall x: nat :: NRecord(w2, x)) && u == Enter(w2, o, v)
    ensures Entered(w2, u, k, Telling(d, o, v))
  {
    if k == Progress { EnterBeat(w2, d, o, v); } else { EnterSilent(w2, k, o, v); }
  }

  lemma AsFromW(w: World, w2: World, u: World, d: nat, k: Kind, o: Observer, v: Val, b: Beat)
    requires Entered(w2, u, k, Telling(d, o, v)) && w2.whens == w.whens && |u.whens| == |w.whens| && u.calls == w.calls
    requires d < |w.cells| && NObs(w, d, k, o) && Extends(w, u)
    requires b.told == (if k == Progress then Some(Telling(d, o, v)) else None) && b.answered.None?
    requires (forall t: nat :: HeardBeat(w, u, b, t)) && (forall t: nat :: ToldBeat(w, u, b, t))
    ensures Solo(u) && Beats(w, u, b)
  {
    hide Extends, Heard, Told, NoFire, Solo, Hand;
    forall x: nat ensures NotesBeat(w, u, b, x) { assert NotesBeat(w2, u, Entry(k, Telling(d, o, v)), x); }
  }


  // ----- steps -----

  /** What library code has in hand is notified; client code notifies only what it created. */
  ghost predicate Led(w: World, b: Beat) {
    if Hand(w).Some? then b.fired == Hand(w)
    else b.fired.Some? ==> b.fired.value.to < |w.cells| && w.cells[b.fired.value.to].origin == Public
  }

  /** Nothing was notified and nobody told. */
  lemma RestBeats(w: World, u: World)
    requires Extends(w, u) && u.calls == w.calls && Hand(u).None?
    requires w.cells <= u.cells && forall i :: |w.cells| <= i < |u.cells| ==> u.cells[i].d == NewDfd()
    requires forall x :: 0 <= x < |w.whens| ==> u.whens[x].notes == w.whens[x].notes
    requires forall x :: |w.whens| <= x < |u.whens| ==> forall v :: v in u.whens[x].notes ==> v == Undefined
    ensures Beats(w, u, REST)
  {
    NewSound();
    assert Made([]) == [];
    hide Extends, NewDfd, Sound, Hand, Grows;
    forall t: nat ensures HeardBeat(w, u, REST, t) && ToldBeat(w, u, REST, t) {
      assert Told(w, t) + [] == Told(w, t) && Heard(w, t) + [] == Heard(w, t);
    }
    hide Heard, Told, HeardBeat, ToldBeat;
  }

  /** Taking frames off changes nothing that a beat speaks of. */
  lemma LiftBeats(w: World, w0: World, u: World, b: Beat)
    requires w0.cells == w.cells && w0.whens == w.whens && w0.calls == w.calls && Beats(w0, u, b)
    ensures Beats(w, u, b)
  {
    ExtendsSelf(w, w0);
    ExtendsTransitive(w, w0, u);
    forall t: nat ensures HeardBeat(w, u, b, t) && ToldBeat(w, u, b, t) && NotesBeat(w, u, b, t) {
      assert HeardBeat(w0, u, b, t) && ToldBeat(w0, u, b, t) && NotesBeat(w0, u, b, t);
    }
    hide Extends;
  }

  lemma ActBeats(w: World, a: Act) returns (b: Beat)
    requires Shape(w) && CellsOk(w) && NInv(w) && NAct(w, a) && Calm(w)
    ensures Solo(DoAct(w, a)) && Beats(w, DoAct(w, a), b)
    ensures b.fired == if a.GFire? && a.kind == Progress then Some(Note(a.target, a.arg)) else None
  {
    hide Sound, DInv, StatusOf, Firing, Due, NFrame, NRecord, NHandling, OnlyDue, KeepsDue, FireD, AddD, ListsWf, Effect, Grows, Notable, NObs, Apply;
    hide Solo, Calm, Beats;
    match a
    case GFire(t, k, v) =>
      if t < |w.cells| {
        b := FireBeats(w, t, k, v);
      } else {
        b := REST;
        StaysBeats(w);
      }
    case GAdd(t, k, o) =>
      if t < |w.cells| {
        b := AddBeats(w, t, k, o);
      } else {
        b := REST;
        StaysBeats(w);
      }
    case GVisit(x, i) =>
      b := REST;
      VisitBeats(w, x, i);
  }

  lemma StaysBeats(w: World)
    requires Calm(w)
    ensures Solo(w) && Beats(w, w, REST)
  {
    CalmHand(w);
    ExtendsSelf(w, w);
    RestBeats(w, w);
  }

  lemma FireBeats(w: World, t: nat, k: Kind, v: Val) returns (b: Beat)
    requires Shape(w) && CellsOk(w) && NInv(w) && Calm(w) && t < |w.cells| && (k == Progress ==> Notable(w, t, v))
    ensures var u := Apply(w, t, k, FireD(w.cells[t].d, k, v));
      && Solo(u) && Beats(w, u, b)
      && b.fired == if k == Progress then Some(Note(t, v)) else None
  {
    var d := w.cells[t].d;
    CellSound(w, t);
    FlagMatches(w, t, k);
    FireHears(d, k, v);
    FireEffect(d, k, v);
    FireTraffic(d, k, v);
    var n := if k == Progress then Some(v) else None;
    b := BeatOf(t, k, FireD(d, k, v), n);
    hide Sound, DInv, Hears, NInv, Calm, OnlyDue, Effect, Notable, Apply, Solo, Beats, FireD, CellsOk, Shape;
    ApplyBeats(w, t, k, FireD(d, k, v), n, None);
  }

  lemma AddBeats(w: World, t: nat, k: Kind, o: Observer) returns (b: Beat)
    requires Shape(w) && CellsOk(w) && NInv(w) && Calm(w) && t < |w.cells| && NObs(w, t, k, o)
    ensures Solo(Apply(w, t, k, AddD(w.cells[t].d, k, o))) && Beats(w, Apply(w, t, k, AddD(w.cells[t].d, k, o)), b) && b.fired.None?
  {
    var d := w.cells[t].d;
    CellSound(w, t);
    FlagMatches(w, t, k);
    AddHears(d, k, o);
    AddEffect(d, k, o);
    AddTraffic(d, k, o);
    b := BeatOf(t, k, AddD(d, k, o), None);
    hide Sound, DInv, Hears, NInv, Calm, OnlyDue, Effect, Apply, Solo, Beats, AddD, CellsOk, Shape, NObs;
    ApplyBeats(w, t, k, AddD(d, k, o), None, Some(o));
  }

  lemma VisitBeats(w: World, x: nat, i: nat)
    requires NInv(w) && Calm(w)
    ensures Solo(Visit(w, x, i)) && Beats(w, Visit(w, x, i), REST)
  {
    VisitNInv(w, x, i);
    hide NInv;
    var u := Visit(w, x, i);
    if u.stack != w.stack {
      assert u.stack == [u.stack[0]] + w.stack;
      PushCalm(w.(whens := u.whens), u.stack[0]);
    } else {
      CalmHand(w);
    }
    hide Extends;
    RestBeats(w, u);
  }

  lemma ActionBeats(w: World, a: Action) returns (b: Beat)
    requires Shape(w) && CellsOk(w) && NInv(w) && Calm(w)
    ensures Solo(DoAction(w, a)) && Beats(w, DoAction(w, a), b)
    ensures b.fired.Some? ==> b.fired.value.to < |w.cells| && w.cells[b.fired.value.to].origin == Public
  {
    ActionNInv(w, a);
    hide NInv, Extends, Shape, CellsOk, NewDfd, FireD, AddD, NObs, Apply, Solo, Beats, StatusAt, Heard;
    b := REST;
    match a
    case MakeDeferred => MakeBeats(w);
    case Settle(t, k, v) =>
      if t < |w.cells| && w.cells[t].origin == Public { b := FireBeats(w, t, k, v); } else { StaysBeats(w); }
    case Listen(t, k, n) =>
      if t < |w.cells| {
        UserSilent(w, t, k, n);
        b := AddBeats(w, t, k, User(n));
      } else {
        StaysBeats(w);
      }
    case Then(d, fns) =>
      if d < |w.cells| { ThenBeats(w, d, fns); } else { StaysBeats(w); }
    case WhenAll(args) =>
      if (forall i :: 0 <= i < |args| ==> ValidArg(w, args[i])) && !(|args| == 1 && args[0].Promise?) {
        WhenBeats(w, args);
      } else {
        StaysBeats(w);
      }
  }

  lemma MakeBeats(w: World)
    requires CellsOk(w) && Calm(w) && Extends(w, DoAction(w, MakeDeferred))
    ensures Solo(DoAction(w, MakeDeferred)) && Beats(w, DoAction(w, MakeDeferred), REST)
  {
    hide NewDfd, Extends, Heard, CellsOk, Beats;
    var u := DoAction(w, MakeDeferred);
    CalmHand(u);
    RestBeats(w, u);
  }

  lemma ThenBeats(w: World, d: nat, fns: Fns)
    requires CellsOk(w) && Calm(w) && d < |w.cells| && Extends(w, DoAction(w, Then(d, fns)))
    ensures Solo(DoAction(w, Then(d, fns))) && Beats(w, DoAction(w, Then(d, fns)), REST)
  {
    hide NewDfd, Extends, Heard, CellsOk, Beats;
    var u := DoAction(w, Then(d, fns));
    PushCalm(w.(cells := u.cells), Glue(ThenAdds(d, |w.cells|, fns)));
    CalmHand(u);
    RestBeats(w, u);
  }

  lemma WhenBeats(w: World, args: seq<Arg>)
    requires Calm(w) && !(|args| == 1 && args[0].Promise?) && Extends(w, StartWhen(w, args))
    ensures Solo(StartWhen(w, args)) && Beats(w, StartWhen(w, args), REST)
  {
    hide NewDfd, Extends, Heard;
    var u := StartWhen(w, args);
    assert u.stack == [u.stack[0]] + w.stack;
    PushCalm(w.(whens := u.whens, cells := u.cells), u.stack[0]);
    RestBeats(w, u);
  }

  lemma ReturnBeats(w: World, h: Option<Handling>, ret: Arg) returns (b: Beat)
    requires NInv(w) && w.stack != [] && w.stack[0] == UserCode(h) && (h.Some? ==> IsThen(w, h.value.target)) && Calm(w)
    ensures Solo(DoReturn(w, h, ret)) && Beats(w, DoReturn(w, h, ret), b) && b.fired.None?
  {
    ReturnNInv(w, h, ret);
    var u := DoReturn(w, h, ret);
    var below := w.(stack := w.stack[1..]);
    b := REST;
    if |w.stack| == 1 || !ValidArg(w, ret) {
      StaysBeats(w);
    } else {
      assert Calm(below);
      hide Extends, Heard, NCell, NRecord, NFrame, StatusAt;
      if h.None? {
        CalmHand(below);
        RestBeats(w, u);
      } else {
        b := Beat(None, None, Some(HandlerCall(h.value, ret)));
        PushCalm(below.(calls := u.calls), Glue(AfterHandler(h.value, ret)));
        AnswerBeats(w, u, b);
      }
    }
  }

  lemma AnswerBeats(w: World, u: World, b: Beat)
    requires Extends(w, u) && u.cells == w.cells && u.whens == w.whens
    requires b.fired.None? && b.told.None? && b.answered.Some? && u.calls == w.calls + [b.answered.value]
    requires NHandling(u, b.answered.value.h)
    requires u.stack != [] && u.stack[0] == Glue(AfterHandler(b.answered.value.h, b.answered.value.ret))
    ensures Beats(w, u, b)
  {
    forall t: nat ensures HeardBeat(w, u, b, t) && ToldBeat(w, u, b, t) {
      assert Told(w, t) + [] == Told(w, t) && Heard(w, t) + [] == Heard(w, t);
    }
    hide Extends, Heard, Told, NHandling;
  }

  /** Every step is one beat. */
  lemma StepBeats(w: World, c: Choice) returns (b: Beat)
    requires Shape(w) && CellsOk(w) && ThenInv(w) && NInv(w) && Solo(w)
    ensures Solo(Step(w, c)) && Beats(w, Step(w, c), b) && Led(w, b)
  {
    hide DInv, StatusAt, NInv, ThenInv, Beats, Led, Solo, Apply, DoAct, DoAction, DoReturn, FinishedD, ListsWf;
    match w.stack[0]
    case InCallback(t, k) => b := ReturnedBeats(w, t, k);
    case Glue(acts) => if acts == [] { b := DroppedBeats(w); } else { b := GlueBeats(w, acts); }
    case UserCode(h) =>
      match c {
        case Act(a) => b := ClientBeats(w, h, a);
        case Return(ret) => b := AnsweredBeats(w, h, ret);
      }
  }

  lemma DroppedBeats(w: World) returns (b: Beat)
    requires Solo(w) && w.stack != [] && w.stack[0] == Glue([])
    ensures var u := w.(stack := w.stack[1..]); Solo(u) && Beats(w, u, b) && Led(w, b)
  {
    var below := w.(stack := w.stack[1..]);
    b := REST;
    StaysBeats(below);
    LiftBeats(w, below, below, b);
  }

  lemma ClientCalm(w: World, h: Option<Handling>)
    requires Solo(w) && w.stack != [] && w.stack[0] == UserCode(h)
    ensures Calm(w) && Hand(w).None?
  {
    assert w.stack == [w.stack[0]] + w.stack[1..];
  }

  lemma ClientBeats(w: World, h: Option<Handling>, a: Action) returns (b: Beat)
    requires Shape(w) && CellsOk(w) && NInv(w) && Solo(w) && w.stack[0] == UserCode(h)
    ensures Solo(DoAction(w, a)) && Beats(w, DoAction(w, a), b) && Led(w, b)
  {
    ClientCalm(w, h);
    hide Shape, CellsOk, NInv, Calm, Solo, Beats, DoAction, Hand;
    b := ActionBeats(w, a);
  }

  lemma AnsweredBeats(w: World, h: Option<Handling>, ret: Arg) returns (b: Beat)
    requires ThenInv(w) && NInv(w) && Solo(w) && w.stack != [] && w.stack[0] == UserCode(h)
    ensures Solo(DoReturn(w, h, ret)) && Beats(w, DoReturn(w, h, ret), b) && Led(w, b)
  {
    assert FrameOk(w, w.stack[0]);
    ClientCalm(w, h);
    hide ThenInv, NInv, Calm, Solo, Beats, DoReturn, Hand;
    b := ReturnBeats(w, h, ret);
  }

  lemma ReturnedBeats(w: World, t: nat, k: Kind) returns (b: Beat)
    requires Shape(w) && CellsOk(w) && NInv(w) && Solo(w) && w.stack[0] == InCallback(t, k)
    ensures t < |w.cells|
    ensures var u := Apply(w.(stack := w.stack[1..]), t, k, FinishedD(w.cells[t].d, k));
      Solo(u) && Beats(w, u, b) && Led(w, b)
  {
    var below := w.(stack := w.stack[1..]);
    assert Calm(below);
    PopShape(w);
    ExtendsSelf(w, below);
    var d := w.cells[t].d;
    CellSound(w, t);
    FlagMatches(w, t, k);
    FinishedHears(d, k);
    FinishedEffect(d, k);
    FinishedTraffic(d, k);
    b := BeatOf(t, k, FinishedD(d, k), None);
    hide Sound, DInv, Hears, Calm, OnlyDue, Effect, Apply, Solo, Beats, FinishedD, CellsOk, Shape, NCell, NFrame, NRecord, NHandling, Extends;
    SameCells(w, below);
    hide NInv;
    ApplyBeats(below, t, k, FinishedD(d, k), None, None);
    LiftBeats(w, below, Apply(below, t, k, FinishedD(d, k)), b);
  }

  lemma GlueBeats(w: World, acts: seq<Act>) returns (b: Beat)
    requires Shape(w) && CellsOk(w) && NInv(w) && Solo(w) && w.stack[0] == Glue(acts) && acts != []
    ensures CellsOk(Push(w.(stack := w.stack[1..]), Glue(acts[1..])))
    ensures var u := DoAct(Push(w.(stack := w.stack[1..]), Glue(acts[1..])), acts[0]);
      Solo(u) && Beats(w, u, b) && Led(w, b)
  {
    var below := w.(stack := w.stack[1..]);
    var rest := Push(below, Glue(acts[1..]));
    assert Calm(rest);
    assert NFrame(w, w.stack[0]);
    PopShape(w);
    PushShape(below, rest, -1, Done);
    TakeNAct(w, rest, acts);
    ExtendsSelf(w, below);
    ExtendsSelf(below, rest);
    hide Sound, Calm, Solo, Beats, NCell, NFrame, NRecord, NHandling, Extends, Shape, DoAct;
    SameCells(w, below);
    SameCells(below, rest);
    hide NInv;
    b := ActBeats(rest, acts[0]);
    LiftBeats(w, rest, DoAct(rest, acts[0]), b);
  }
}
