/**
 jQuery.Deferred: three callback lists wired together. Client code is in control
 between operations; a firing list is suspended in one of its client callbacks
 and Finished(kind) says that this callback returned. The callbacks that Deferred
 installs itself (state change, disable, lock) run inside one operation, since no
 client code runs between them.
 */
module Deferred {
  import opened Prelude
  import opened CallbackList
  import opened Observers

  datatype State = Pending | Resolved | Rejected

  datatype Cb = SetState(state: State) | DisableList(kind: Kind) | LockProgress | Client(obs: Observer)

  /** One run of a client callback: what ran, its argument and the state it could see. */
  datatype Call = Call(obs: Observer, arg: Val, state: State)

  /** One list with the client registrations it was given and the client calls it made. */
  datatype Side = Side(list: CList<Cb, Val>, added: seq<Observer>, calls: seq<Call>)

  datatype Dfd = Dfd(state: State, done: Side, fail: Side, progress: Side)

  function Get(d: Dfd, k: Kind): Side {
    match k case Done => d.done case Fail => d.fail case Progress => d.progress
  }

  function Set(d: Dfd, k: Kind, s: Side): Dfd {
    match k case Done => d.(done := s) case Fail => d.(fail := s) case Progress => d.(progress := s)
  }

  const ONCE_MEMORY := Options(true, true, false, false)
  const MEMORY := Options(false, true, false, false)

  function Internals(k: Kind): seq<Cb> {
    match k
    case Done => [SetState(Resolved), DisableList(Fail), LockProgress]
    case Fail => [SetState(Rejected), DisableList(Done), LockProgress]
    case Progress => []
  }

  function NewSide(k: Kind): Side {
    Side(Add(New(if k == Progress then MEMORY else ONCE_MEMORY), Internals(k)), [], [])
  }

  function NewDfd(): Dfd {
    Dfd(Pending, NewSide(Done), NewSide(Fail), NewSide(Progress))
  }

  /** The list is suspended at a callback it has just called. */
  ghost predicate AtCall<C, D>(l: CList<C, D>) {
    Wf(l) && l.firing && l.list.Some? && 0 <= l.firingIndex
  }

  /** Every list between two operations. */
  ghost predicate ListsWf(d: Dfd) {
    Wf(d.done.list) && Wf(d.fail.list) && Wf(d.progress.list)
  }

  function Internal(d: Dfd, cb: Cb): (r: Dfd)
    requires ListsWf(d)
    ensures ListsWf(r)
  {
    match cb
    case SetState(st) => d.(state := st)
    case DisableList(k) => Set(d, k, Get(d, k).(list := Disable(Get(d, k).list)))
    case LockProgress => d.(progress := d.progress.(list := Lock(d.progress.list)))
    case Client(_) => d
  }

  /** Resuming a list leaves it idle or at a call, with less left to do. */
  lemma ReturnAdvances<C, D>(l: CList<C, D>)
    requires Wf(l) && l.firing
    ensures var r := Return(l, false);
      && Wf(r)
      && (r.firing ==> AtCall(r))
      && (r.firing ==>
            || StackSize(r) < StackSize(l)
            || (l.list.Some? && r == l.(firingIndex := l.firingIndex + 1, log := r.log)))
  {
    DoWf(l, OpReturn(false));
    if l.list.None? || l.firingIndex + 1 >= l.firingLength {
      FinishAtCall(l.(firingIndex := l.firingIndex + 1));
    }
  }

  lemma FinishAtCall<C, D>(l: CList<C, D>)
    requires l.firingStart == 0
    requires l.list.None? ==> l.stack.None? && l.memory.None?
    requires l.memory.Some? ==> l.fired && l.options.memory
    requires l.options.once ==> l.stack.None?
    ensures Finish(l).firing ==> AtCall(Finish(l)) && StackSize(Finish(l)) < StackSize(l)
    decreases StackSize(l)
  {
    FinishWf(l);
    if l.list.Some? && l.stack.Some? && |l.stack.value| > 0 {
      var b := Begin(l.(firing := false, current := None, stack := Some(l.stack.value[1..])), l.stack.value[0], true);
      if b.firingIndex >= b.firingLength { FinishAtCall(b); }
    }
  }

  lemma HeadAtCall<C, D>(l: CList<C, D>, data: D, requested: bool)
    requires l.list.Some? && l.firingStart <= |l.list.value|
    requires l.options.once ==> l.stack.None?
    ensures Head(Begin(l, data, requested)).firing ==> AtCall(Head(Begin(l, data, requested)))
  {
    BeginHeadWf(l, data, requested);
    var b := Begin(l, data, requested);
    if b.firingIndex >= b.firingLength { FinishAtCall(b); }
  }

  function Left<C, D>(l: CList<C, D>): nat {
    if l.list.Some? && l.firingIndex <= |l.list.value| then |l.list.value| - l.firingIndex else 0
  }

  /** The Deferred's own callback under the cursor of list k, and the resumption of the list. */
  function AfterInternal(d: Dfd, k: Kind): (r: Dfd)
    requires ListsWf(d) && AtCall(Get(d, k).list)
    ensures ListsWf(r)
  {
    var l := Get(d, k).list;
    var d1 := Internal(d, l.list.value[l.firingIndex]);
    InternalKeepsCursor(d, l.list.value[l.firingIndex], k);
    var s1 := Get(d1, k);
    ReturnAdvances(s1.list);
    Set(d1, k, s1.(list := Return(s1.list, false)))
  }

  lemma InternalKeepsCursor(d: Dfd, cb: Cb, k: Kind)
    requires ListsWf(d)
    ensures var l, l1 := Get(d, k).list, Get(Internal(d, cb), k).list;
      && l1.firing == l.firing && l1.firingIndex == l.firingIndex
      && (l1.list == l.list || l1.list.None?)
      && (l1.stack == l.stack || l1.stack.None?)
  {
  }

  lemma AfterInternalAdvances(d: Dfd, k: Kind)
    requires ListsWf(d) && AtCall(Get(d, k).list)
    ensures var l, l1 := Get(d, k).list, Get(AfterInternal(d, k), k).list;
      l1.firing ==>
        && AtCall(l1)
        && (StackSize(l1) < StackSize(l) || (StackSize(l1) == StackSize(l) && Left(l1) < Left(l)))
  {
    var l := Get(d, k).list;
    InternalKeepsCursor(d, l.list.value[l.firingIndex], k);
    ReturnAdvances(Get(Internal(d, l.list.value[l.firingIndex]), k).list);
  }

  /** List k has just called a callback: runs the Deferred's own ones until a client one is up. */
  function Drive(d: Dfd, k: Kind): (r: (Dfd, Option<Observer>))
    requires ListsWf(d) && AtCall(Get(d, k).list)
    ensures ListsWf(r.0)
    decreases StackSize(Get(d, k).list), Left(Get(d, k).list)
  {
    var s := Get(d, k);
    var cb := s.list.list.value[s.list.firingIndex];
    if cb.Client? then
      (Set(d, k, s.(calls := s.calls + [Call(cb.obs, s.list.current.value, d.state)])), Some(cb.obs))
    else
      AfterInternalAdvances(d, k);
      var d1 := AfterInternal(d, k);
      if Get(d1, k).list.firing then Drive(d1, k) else (d1, None)
  }

  /** deferred.resolve, reject and notify. The second result is the client callback now running. */
  function FireD(d: Dfd, k: Kind, v: Val): (r: (Dfd, Option<Observer>))
    requires ListsWf(d)
    ensures ListsWf(r.0)
  {
    var s := Get(d, k);
    DoWf(s.list, OpFire(v));
    var list := FireWith(s.list, v);
    var d1 := Set(d, k, s.(list := list));
    if list.firing && !s.list.firing then
      HeadAtCall(s.list.(asked := s.list.asked + [v]), v, true);
      Drive(d1, k)
    else (d1, None)
  }

  /** promise.done, fail and progress. */
  function AddD(d: Dfd, k: Kind, o: Observer): (r: (Dfd, Option<Observer>))
    requires ListsWf(d)
    ensures ListsWf(r.0)
  {
    var s := Get(d, k);
    DoWf(s.list, OpAdd([Client(o)]));
    var list := Add(s.list, [Client(o)]);
    var d1 := Set(d, k, s.(list := list, added := s.added + [o]));
    if list.firing && !s.list.firing then
      HeadAtCall(s.list.(list := Some(Appended(s.list.list.value, [Client(o)], s.list.options.unique)),
                         firingStart := |s.list.list.value|), s.list.memory.value, false);
      Drive(d1, k)
    else (d1, None)
  }

  /** The client callback list k is in returned. */
  function FinishedD(d: Dfd, k: Kind): (r: (Dfd, Option<Observer>))
    requires ListsWf(d)
    ensures ListsWf(r.0)
  {
    var s := Get(d, k);
    if !s.list.firing then (d, None)
    else
      ReturnAdvances(s.list);
      var list := Return(s.list, false);
      var d1 := Set(d, k, s.(list := list));
      if list.firing then Drive(d1, k) else (d1, None)
  }
}
