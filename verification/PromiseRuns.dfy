/** Every Deferred that client code can come by, made by itself or by the library, has been through some run of its own. */
module PromiseRuns {
  import opened Prelude
  import opened Observers
  import opened Deferred
  import opened DeferredRuns
  import opened DeferredLife
  import Promises

  /** d has made at most one operation. */
  ghost predicate Moves(d: Dfd, r: Dfd) {
    r == d || (ListsWf(d) && exists op :: r == DoD(d, op))
  }

  ghost predicate HasRun(d: Dfd) {
    exists ops :: d == RunD(NewDfd(), ops)
  }

  lemma {:induction false} RunOn(d: Dfd, ops: seq<DOp>, op: DOp)
    requires ListsWf(d)
    ensures RunD(d, ops + [op]) == DoD(RunD(d, ops), op)
    decreases |ops|
  {
    hide ListsWf, DoD;
    if ops == [] {
      assert ops + [op] == [op] && [op][1..] == [];
    } else {
      assert (ops + [op])[1..] == ops[1..] + [op];
      RunOn(DoD(d, ops[0]), ops[1..], op);
    }
  }

  lemma MovesOn(d: Dfd, r: Dfd)
    requires HasRun(d) && Moves(d, r)
    ensures HasRun(r)
  {
    NewDfdInv();
    assert ListsWf(NewDfd());
    hide DoD, RunD, NewDfd, DInv, ListsWf;
    var ops :| d == RunD(NewDfd(), ops);
    if r != d {
      var op :| r == DoD(d, op);
      RunOn(NewDfd(), ops, op);
      assert r == RunD(NewDfd(), ops + [op]);
    }
  }

  /** Every Deferred of w has moved at most once, and those that are new are untouched. */
  ghost predicate AllMove(w: Promises.World, u: Promises.World) {
    && |w.cells| <= |u.cells|
    && (forall i :: 0 <= i < |w.cells| ==> Moves(w.cells[i].d, u.cells[i].d))
    && (forall i :: |w.cells| <= i < |u.cells| ==> u.cells[i].d == NewDfd())
  }

  lemma ApplyMoves(w: Promises.World, d: nat, k: Kind, r: (Dfd, Option<Observer>), op: DOp)
    requires d < |w.cells| && ListsWf(w.cells[d].d) && r.0 == DoD(w.cells[d].d, op)
    ensures AllMove(w, Promises.Apply(w, d, k, r))
  {
    hide DoD, ListsWf;
  }

  lemma ActMoves(w: Promises.World, a: Promises.Act)
    requires Promises.CellsOk(w)
    ensures AllMove(w, Promises.DoAct(w, a))
  {
    hide ListsWf, FireD, AddD, FinishedD, Promises.Apply;
    match a
    case GFire(t, k, v) => if t < |w.cells| { ApplyMoves(w, t, k, FireD(w.cells[t].d, k, v), Fire(k, v)); }
    case GAdd(d, k, o) => if d < |w.cells| { ApplyMoves(w, d, k, AddD(w.cells[d].d, k, o), Register(k, o)); }
    case GVisit(x, i) =>
  }

  lemma ActionMoves(w: Promises.World, a: Promises.Action)
    requires Promises.CellsOk(w)
    ensures AllMove(w, Promises.DoAction(w, a))
  {
    hide ListsWf, FireD, AddD, FinishedD, Promises.Apply, NewDfd;
    match a
    case Settle(t, k, v) => if t < |w.cells| { ApplyMoves(w, t, k, FireD(w.cells[t].d, k, v), Fire(k, v)); }
    case Listen(d, k, n) => if d < |w.cells| { ApplyMoves(w, d, k, AddD(w.cells[d].d, k, User(n)), Register(k, User(n))); }
    case _ =>
  }

  lemma StepMoves(w: Promises.World, c: Promises.Choice)
    requires Promises.CellsOk(w)
    ensures AllMove(w, Promises.Step(w, c))
  {
    hide ListsWf, FireD, AddD, FinishedD, Promises.Apply, NewDfd;
    if w.stack != [] {
      var below := w.(stack := w.stack[1..]);
      match w.stack[0]
      case InCallback(d, k) => if d < |w.cells| { ApplyMoves(below, d, k, FinishedD(w.cells[d].d, k), Finished(k)); }
      case Glue(acts) => if acts != [] { ActMoves(Promises.Push(below, Promises.Glue(acts[1..])), acts[0]); }
      case UserCode(h) => if c.Act? { ActionMoves(w, c.action); }
    }
  }

  ghost predicate AllRun(w: Promises.World) {
    forall i :: 0 <= i < |w.cells| ==> HasRun(w.cells[i].d)
  }

  lemma FreshRun()
    ensures HasRun(NewDfd())
  {
    NewDfdInv();
    assert NewDfd() == RunD(NewDfd(), []);
  }

  lemma StepRuns(w: Promises.World, c: Promises.Choice)
    requires Promises.CellsOk(w) && AllRun(w)
    ensures AllRun(Promises.Step(w, c))
  {
    StepMoves(w, c);
    FreshRun();
    var u := Promises.Step(w, c);
    hide Promises.Step, HasRun, NewDfd, Moves;
    forall i | 0 <= i < |u.cells| ensures HasRun(u.cells[i].d) {
      if i < |w.cells| { MovesOn(w.cells[i].d, u.cells[i].d); }
    }
  }

  lemma {:induction false} RunRuns(w: Promises.World, choices: seq<Promises.Choice>)
    requires Promises.CellsOk(w) && AllRun(w)
    ensures AllRun(Promises.Run(w, choices))
    decreases |choices|
  {
    hide AllRun, Promises.Step, Promises.CellsOk;
    if choices != [] {
      Promises.StepCellsOk(w, choices[0]);
      StepRuns(w, choices[0]);
      RunRuns(Promises.Step(w, choices[0]), choices[1..]);
    }
  }

  /**
   In every run of the whole system each Deferred is where some run of a single
   Deferred leads, so all that holds of every such run holds of it.
   */
  lemma EveryDeferredHasRun(choices: seq<Promises.Choice>, i: nat)
    requires i < |Promises.Run(Promises.START, choices).cells|
    ensures ListsWf(NewDfd()) && exists ops :: Promises.Run(Promises.START, choices).cells[i].d == RunD(NewDfd(), ops)
  {
    NewDfdInv();
    RunRuns(Promises.START, choices);
    assert HasRun(Promises.Run(Promises.START, choices).cells[i].d);
  }
}
