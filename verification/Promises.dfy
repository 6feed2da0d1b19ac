/**
 A world of Deferreds with `then` and `when`, driven by the most general client.
 Whenever client code is in control it may do anything the API offers, any
 number of times, or return; a run is the sequence of its choices. The control
 stack is explicit: its top is the code that is running.
 */
module Promises {
  import opened Prelude
  import opened Observers
  import opened Deferred
  import opened DeferredRuns
  import opened DeferredEffects

  /** The handlers passed to one call of `then`; None: not a function. */
  datatype Fns = Fns(done: Option<nat>, fail: Option<nat>, progress: Option<nat>)

  function FnFor(fns: Fns, k: Kind): Option<nat> {
    match k case Done => fns.done case Fail => fns.fail case Progress => fns.progress
  }

  /** Who can settle a Deferred: its creator, or only the library. */
  datatype Origin = Public | ThenOf(src: nat, fns: Fns) | WhenOf(w: nat)

  datatype Cell = Cell(d: Dfd, origin: Origin)

  /** A plain value or somebody's promise. */
  datatype Arg = Plain(v: Val) | Promise(id: nat)

  /** The closure of one call of `when`; open: the positions not yet counted down. */
  datatype When = When(args: seq<Arg>, values: seq<Val>, notes: seq<Val>, remaining: int, open: set<nat>, master: nat)

  /** A handler at work inside the wrapper of `then`. */
  datatype Handling = Handling(target: nat, kind: Kind, fn: nat, arg: Val)

  datatype HandlerCall = HandlerCall(h: Handling, ret: Arg)

  /** Library code still to be executed. */
  datatype Act =
    | GFire(target: nat, kind: Kind, arg: Val)
    | GAdd(to: nat, kind: Kind, obs: Observer)
    | GVisit(w: nat, i: nat)                      // the loop of `when`, about to test i < length

  datatype Frame =
    | InCallback(d: nat, kind: Kind)              // that list is suspended in a callback
    | UserCode(handling: Option<Handling>)
    | Glue(acts: seq<Act>)

  /** stack[0] is running; calls records what handlers returned. */
  datatype World = World(cells: seq<Cell>, whens: seq<When>, stack: seq<Frame>, calls: seq<HandlerCall>)

  datatype Action =
    | MakeDeferred
    | Settle(d: nat, kind: Kind, arg: Val)        // resolve, reject, notify of a Deferred one holds
    | Listen(d: nat, kind: Kind, n: nat)
    | Then(d: nat, fns: Fns)
    | WhenAll(args: seq<Arg>)

  datatype Choice = Act(action: Action) | Return(ret: Arg)

  const START := World([], [], [UserCode(None)], [])

  function StatusAt(w: World, i: nat): Status {
    if i < |w.cells| then StatusOf(w.cells[i].d) else Waiting
  }

  ghost predicate CellsOk(w: World) {
    forall i :: 0 <= i < |w.cells| ==> ListsWf(w.cells[i].d)
  }

  function Push(w: World, f: Frame): World {
    w.(stack := [f] + w.stack)
  }

  function ValueOf(a: Arg): Val {
    match a case Plain(v) => v case Promise(id) => PromiseOf(id)
  }

  function ValuesOf(args: seq<Arg>): seq<Val> {
    seq(|args|, i requires 0 <= i < |args| => ValueOf(args[i]))
  }

  /** {0, ..., n - 1} */
  function Below(n: nat): (r: set<nat>)
    ensures forall i: nat :: i in r <==> i < n
    ensures |r| == n
  {
    if n == 0 then {} else Below(n - 1) + {n - 1}
  }

  /** Enters the function o with argument v. */
  function Enter(w: World, o: Observer, v: Val): World {
    match o
    case User(_) => Push(w, UserCode(None))
    case Forward(t, k) => Push(w, Glue([GFire(t, k, v)]))
    case Handle(t, k, fn) => Push(w, UserCode(Some(Handling(t, k, fn, v))))
    case Collect(x, i) =>
      if x < |w.whens| && i < |w.whens[x].values| then
        var c := w.whens[x];
        var c1 := c.(values := c.values[i := v], remaining := c.remaining - 1, open := c.open - {i});
        var w1 := w.(whens := w.whens[x := c1]);
        if c1.remaining == 0 then Push(w1, Glue([GFire(c1.master, Done, Values(c1.values))])) else w1
      else w
    case CollectProgress(x, i) =>
      if x < |w.whens| && i < |w.whens[x].notes| then
        var c := w.whens[x];
        var c1 := c.(notes := c.notes[i := v]);
        Push(w.(whens := w.whens[x := c1]), Glue([GFire(c1.master, Progress, Values(c1.notes))]))
      else w
  }

  /** Installs the outcome of an operation on list k of Deferred d. */
  function Apply(w: World, d: nat, k: Kind, r: (Dfd, Option<Observer>)): World
    requires d < |w.cells|
  {
    var w1 := w.(cells := w.cells[d := w.cells[d].(d := r.0)]);
    if r.1.None? then w1
    else Enter(Push(w1, InCallback(d, k)), r.1.value, Argument(r.0, k))
  }

  /** What `then` registers on its source for kind k: the wrapped handler, or newDefer[ action ]. */
  function ThenObserver(t: nat, k: Kind, fns: Fns): Observer {
    var fn := FnFor(fns, k);
    if fn.Some? then Handle(t, k, fn.value) else Forward(t, k)
  }

  function ThenAdds(src: nat, t: nat, fns: Fns): seq<Act> {
    [GAdd(src, Done, ThenObserver(t, Done, fns)),
     GAdd(src, Fail, ThenObserver(t, Fail, fns)),
     GAdd(src, Progress, ThenObserver(t, Progress, fns))]
  }

  /** The wrapper of `then` after its handler returned: adopt a promise or pass the value on. */
  function AfterHandler(h: Handling, ret: Arg): seq<Act> {
    match ret
    case Plain(v) => [GFire(h.target, h.kind, v)]
    case Promise(p) =>
      [GAdd(p, Done, Forward(h.target, Done)),
       GAdd(p, Fail, Forward(h.target, Fail)),
       GAdd(p, Progress, Forward(h.target, Progress))]
  }

  /** One round of the loop of `when` at position i, or its end. */
  function Visit(w: World, x: nat, i: nat): World {
    if x >= |w.whens| then w
    else
      var c := w.whens[x];
      if i < |c.args| then
        match c.args[i]
        case Promise(p) =>
          Push(w, Glue([GAdd(p, Done, Collect(x, i)),
                        GAdd(p, Fail, Forward(c.master, Fail)),
                        GAdd(p, Progress, CollectProgress(x, i)),
                        GVisit(x, i + 1)]))
        case Plain(_) =>
          Push(w.(whens := w.whens[x := c.(remaining := c.remaining - 1, open := c.open - {i})]),
               Glue([GVisit(x, i + 1)]))
      else if c.remaining == 0 then
        Push(w, Glue([GFire(c.master, Done, Values(c.values))]))
      else w
  }

  function DoAct(w: World, a: Act): World
    requires CellsOk(w)
  {
    match a
    case GFire(t, k, v) => if t < |w.cells| then Apply(w, t, k, FireD(w.cells[t].d, k, v)) else w
    case GAdd(d, k, o) => if d < |w.cells| then Apply(w, d, k, AddD(w.cells[d].d, k, o)) else w
    case GVisit(x, i) => Visit(w, x, i)
  }

  function ValidArg(w: World, a: Arg): bool {
    a.Promise? ==> a.id < |w.cells|
  }

  /** The call of `when`. With a single promise it answers that promise and does nothing else. */
  function StartWhen(w: World, args: seq<Arg>): World {
    if |args| == 1 && args[0].Promise? then w
    else
      var x, m := |w.whens|, |w.cells|;
      var n := |args|;
      var remaining := if n == 1 then 0 else n;
      var open := if n == 1 then {} else Below(n);
      var c := When(args, ValuesOf(args), seq(n, _ => Undefined), remaining, open, m);
      var w1 := w.(cells := w.cells + [Cell(NewDfd(), WhenOf(x))], whens := w.whens + [c]);
      if n > 1 then Push(w1, Glue([GVisit(x, 0)]))
      else Push(w1, Glue([GFire(m, Done, Values(c.values))]))
  }

  function DoAction(w: World, a: Action): World
    requires CellsOk(w)
  {
    match a
    case MakeDeferred => w.(cells := w.cells + [Cell(NewDfd(), Public)])
    case Settle(d, k, v) =>
      if d < |w.cells| && w.cells[d].origin == Public then Apply(w, d, k, FireD(w.cells[d].d, k, v)) else w
    case Listen(d, k, n) =>
      if d < |w.cells| then Apply(w, d, k, AddD(w.cells[d].d, k, User(n))) else w
    case Then(d, fns) =>
      if d < |w.cells| then
        var t := |w.cells|;
        Push(w.(cells := w.cells + [Cell(NewDfd(), ThenOf(d, fns))]), Glue(ThenAdds(d, t, fns)))
      else w
    case WhenAll(args) =>
      if forall i :: 0 <= i < |args| ==> ValidArg(w, args[i]) then StartWhen(w, args) else w
  }

  /** Client code returns; the event loop at the bottom never does. */
  function DoReturn(w: World, h: Option<Handling>, ret: Arg): World
    requires w.stack != []
  {
    if |w.stack| == 1 || !ValidArg(w, ret) then w
    else
      var w1 := w.(stack := w.stack[1..]);
      if h.None? then w1
      else Push(w1.(calls := w1.calls + [HandlerCall(h.value, ret)]), Glue(AfterHandler(h.value, ret)))
  }

  function Step(w: World, c: Choice): World
    requires CellsOk(w)
  {
    if w.stack == [] then w
    else
      var below := w.(stack := w.stack[1..]);
      match w.stack[0]
      case InCallback(d, k) => if d < |w.cells| then Apply(below, d, k, FinishedD(w.cells[d].d, k)) else below
      case Glue(acts) =>
        if acts == [] then below
        else DoAct(Push(below, Glue(acts[1..])), acts[0])
      case UserCode(h) =>
        match c
        case Act(a) => DoAction(w, a)
        case Return(ret) => DoReturn(w, h, ret)
  }

  function Run(w: World, choices: seq<Choice>): (r: World)
    requires CellsOk(w)
    ensures CellsOk(r)
    decreases |choices|
  {
    if choices == [] then w else StepCellsOk(w, choices[0]); Run(Step(w, choices[0]), choices[1..])
  }

  lemma ApplyCellsOk(w: World, d: nat, k: Kind, r: (Dfd, Option<Observer>))
    requires CellsOk(w) && d < |w.cells| && ListsWf(r.0)
    ensures CellsOk(Apply(w, d, k, r))
  {
    hide ListsWf;
  }

  lemma StepCellsOk(w: World, c: Choice)
    requires CellsOk(w)
    ensures CellsOk(Step(w, c))
  {
    hide ListsWf, FireD, AddD, FinishedD;
    if w.stack != [] {
      var below := w.(stack := w.stack[1..]);
      match w.stack[0]
      case InCallback(d, k) =>
        if d < |w.cells| { ApplyCellsOk(below, d, k, FinishedD(w.cells[d].d, k)); }
      case Glue(acts) =>
        if acts != [] { ActCellsOk(Push(below, Glue(acts[1..])), acts[0]); }
      case UserCode(h) =>
        if c.Act? { ActionCellsOk(w, c.action); }
    }
  }

  lemma ActCellsOk(w: World, a: Act)
    requires CellsOk(w)
    ensures CellsOk(DoAct(w, a))
  {
    hide ListsWf, FireD, AddD, FinishedD;
    match a
    case GFire(t, k, v) => if t < |w.cells| { ApplyCellsOk(w, t, k, FireD(w.cells[t].d, k, v)); }
    case GAdd(d, k, o) => if d < |w.cells| { ApplyCellsOk(w, d, k, AddD(w.cells[d].d, k, o)); }
    case GVisit(x, i) =>
  }

  lemma ActionCellsOk(w: World, a: Action)
    requires CellsOk(w)
    ensures CellsOk(DoAction(w, a))
  {
    NewDfdInv();
    hide ListsWf, FireD, AddD, FinishedD, NewDfd;
    match a
    case Settle(d, k, v) => if d < |w.cells| { ApplyCellsOk(w, d, k, FireD(w.cells[d].d, k, v)); }
    case Listen(d, k, n) => if d < |w.cells| { ApplyCellsOk(w, d, k, AddD(w.cells[d].d, k, User(n))); }
    case _ =>
  }
}
