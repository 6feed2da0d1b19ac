/** The life of a Deferred under arbitrary client code, stated over whole runs. */
module DeferredLife {
  import opened Prelude
  import opened Observers
  import opened Deferred
  import opened DeferredRuns

  /** Everything client code can do to a Deferred, from outside or from inside its callbacks. */
  datatype DOp =
    | Fire(kind: Kind, arg: Val)
    | Register(kind: Kind, obs: Observer)
    | Finished(kind: Kind)

  function DoD(d: Dfd, op: DOp): (r: Dfd)
    requires ListsWf(d)
    ensures ListsWf(r)
  {
    match op
    case Fire(k, v) => FireD(d, k, v).0
    case Register(k, o) => AddD(d, k, o).0
    case Finished(k) => FinishedD(d, k).0
  }

  function RunD(d: Dfd, ops: seq<DOp>): (r: Dfd)
    requires ListsWf(d)
    ensures ListsWf(r)
    decreases |ops|
  {
    if ops == [] then d else RunD(DoD(d, ops[0]), ops[1..])
  }

  /** The first resolve or reject of a run. */
  function FirstSettlement(ops: seq<DOp>): Status {
    if ops == [] then Waiting
    else if ops[0].Fire? && ops[0].kind != Progress then Settled(ops[0].kind, ops[0].arg)
    else FirstSettlement(ops[1..])
  }

  function Registered(ops: seq<DOp>, k: Kind): seq<Observer> {
    if ops == [] then []
    else (if ops[0].Register? && ops[0].kind == k then [ops[0].obs] else []) + Registered(ops[1..], k)
  }

  /** After settling, the progress list only ever replays the value it memorised last. */
  ghost predicate OnlyReplays(d: Dfd, r: Dfd) {
    && r.progress.list.memory == d.progress.list.memory
    && d.progress.calls <= r.progress.calls
    && forall i :: |d.progress.calls| <= i < |r.progress.calls| ==>
      Some(r.progress.calls[i].arg) == d.progress.list.memory
  }

  /** The facts about one operation that the run lemmas below accumulate. */
  ghost predicate Lives(d: Dfd, op: DOp, r: Dfd) {
    && DInv(r)
    && StatusOf(r) == (if d.state != Pending then StatusOf(d) else FirstSettlement([op]))
    && r.done.added == d.done.added + Registered([op], Done)
    && r.fail.added == d.fail.added + Registered([op], Fail)
    && r.progress.added == d.progress.added + Registered([op], Progress)
    && (d.state != Pending ==> OnlyReplays(d, r))
  }

  lemma OneOp(op: DOp)
    ensures forall k :: Registered([op], k) == if op.Register? && op.kind == k then [op.obs] else []
    ensures FirstSettlement([op]) == if op.Fire? && op.kind != Progress then Settled(op.kind, op.arg) else Waiting
  {
    assert [op][1..] == [];
  }

  lemma FireLife(d: Dfd, k: Kind, v: Val)
    requires DInv(d)
    ensures Lives(d, Fire(k, v), FireD(d, k, v).0)
  {
    OneOp(Fire(k, v));
    var r := FireD(d, k, v);
    if d.state != Pending {
      FireSettled(d, k, v);
    } else if k == Progress {
      FireProgress(d, v);
    } else {
      SettleEffect(d, k, v);
    }
  }

  lemma RegisterLife(d: Dfd, k: Kind, o: Observer)
    requires DInv(d)
    ensures Lives(d, Register(k, o), AddD(d, k, o).0)
  {
    OneOp(Register(k, o));
    hide AddD, DInv, Registered, FirstSettlement;
    if k == Progress {
      AddProgress(d, o);
    } else if d.state == Pending {
      AddWaiting(d, k, o);
    } else if k == Settler(d) {
      AddSettled(d, k, o);
    } else {
      AddShut(d, k, o);
    }
  }

  lemma FinishedLife(d: Dfd, k: Kind)
    requires DInv(d)
    ensures Lives(d, Finished(k), FinishedD(d, k).0)
  {
    OneOp(Finished(k));
    var r := FinishedD(d, k);
    if Get(d, k).list.firing {
      if k == Progress { FinishedProgress(d); } else { FinishedSettled(d, k); }
    }
  }

  lemma StepLife(d: Dfd, op: DOp)
    requires DInv(d)
    ensures Lives(d, op, DoD(d, op))
  {
    match op
    case Fire(k, v) => FireLife(d, k, v);
    case Register(k, o) => RegisterLife(d, k, o);
    case Finished(k) => FinishedLife(d, k);
  }

  lemma {:induction false} RunInv(d: Dfd, ops: seq<DOp>)
    requires DInv(d)
    ensures DInv(RunD(d, ops))
    decreases |ops|
  {
    if ops != [] {
      StepLife(d, ops[0]);
      RunInv(DoD(d, ops[0]), ops[1..]);
    }
  }

  lemma {:induction false} RunStatus(d: Dfd, ops: seq<DOp>)
    requires DInv(d)
    ensures StatusOf(RunD(d, ops)) == if d.state != Pending then StatusOf(d) else FirstSettlement(ops)
    decreases |ops|
  {
    if ops != [] {
      StepLife(d, ops[0]);
      RunStatus(DoD(d, ops[0]), ops[1..]);
      assert FirstSettlement([ops[0]][1..]) == Waiting;
    }
  }

  lemma StepAdded(d: Dfd, op: DOp, k: Kind)
    requires DInv(d)
    ensures DInv(DoD(d, op))
    ensures Get(DoD(d, op), k).added == Get(d, k).added + Registered([op], k)
  {
    StepLife(d, op);
  }

  lemma RegisteredCons(ops: seq<DOp>, k: Kind)
    requires ops != []
    ensures Registered(ops, k) == Registered([ops[0]], k) + Registered(ops[1..], k)
  {
    assert [ops[0]][1..] == [];
  }

  lemma {:induction false} RunAdded(d: Dfd, ops: seq<DOp>, k: Kind, before: seq<Observer>)
    requires DInv(d) && Get(d, k).added == before
    ensures Get(RunD(d, ops), k).added == before + Registered(ops, k)
    decreases |ops|
  {
    if ops == [] {
      assert before + [] == before;
    } else {
      StepAdded(d, ops[0], k);
      var first, rest := Registered([ops[0]], k), Registered(ops[1..], k);
      RunAdded(DoD(d, ops[0]), ops[1..], k, before + first);
      RegisteredCons(ops, k);
      Associative(before, first, rest);
    }
  }

  lemma Associative<T>(a: seq<T>, b: seq<T>, c: seq<T>)
    ensures a + b + c == a + (b + c)
  {
  }

  lemma {:induction false} RunReplays(d: Dfd, ops: seq<DOp>)
    requires DInv(d) && d.state != Pending
    ensures OnlyReplays(d, RunD(d, ops))
    decreases |ops|
  {
    if ops != [] {
      StepLife(d, ops[0]);
      RunReplays(DoD(d, ops[0]), ops[1..]);
    }
  }

  /** Client callbacks of side k, in registration order, each called once with v while the state is already final. */
  ghost predicate CalledInOrder(d: Dfd, k: Kind, v: Val, registered: seq<Observer>) {
    && |Get(d, k).calls| <= |registered|
    && (forall i :: 0 <= i < |Get(d, k).calls| ==> Get(d, k).calls[i] == Call(registered[i], v, StateOf(k)))
    && (!Get(d, k).list.firing ==> |Get(d, k).calls| == |registered|)
  }

  /**
   Whatever client code does, in whatever order and however nested: the first
   resolve or reject decides; the callbacks of that side, registered before,
   during or after settling, run exactly once each in registration order with
   the settled value and the final state; those of the other side never run.
   */
  lemma LifeOfADeferred(ops: seq<DOp>)
    ensures var d, outcome := RunD(NewDfd(), ops), FirstSettlement(ops);
      && StatusOf(d) == outcome
      && (outcome.Waiting? ==> d.state == Pending && d.done.calls == [] && d.fail.calls == [])
      && (outcome.Settled? ==>
        && outcome.kind != Progress && d.state == StateOf(outcome.kind)
        && CalledInOrder(d, outcome.kind, outcome.value, Registered(ops, outcome.kind))
        && Get(d, Other(outcome.kind)).calls == [])
  {
    NewDfdInv();
    RunInv(NewDfd(), ops);
    RunStatus(NewDfd(), ops);
    forall k: Kind
      ensures Get(RunD(NewDfd(), ops), k).added == Registered(ops, k)
    {
      RunAdded(NewDfd(), ops, k, []);
      assert [] + Registered(ops, k) == Registered(ops, k);
    }
  }

  /** The state leaves "pending" at most once, and later notifies reach nobody. */
  lemma SettledForGood(before: seq<DOp>, after: seq<DOp>)
    requires FirstSettlement(before).Settled?
    ensures var d := RunD(NewDfd(), before);
      && d.state != Pending
      && StatusOf(RunD(d, after)) == StatusOf(d) == FirstSettlement(before)
      && OnlyReplays(d, RunD(d, after))
  {
    NewDfdInv();
    RunInv(NewDfd(), before);
    RunStatus(NewDfd(), before);
    RunStatus(RunD(NewDfd(), before), after);
    RunReplays(RunD(NewDfd(), before), after);
  }
}
