/** Every run of a Deferred: the invariant, and what each operation does as seen by clients. */
module DeferredRuns {
  import opened Prelude
  import opened CallbackList
  import opened Observers
  import opened Deferred

  datatype Status = Waiting | Settled(kind: Kind, value: Val)

  function Wrap(os: seq<Observer>): seq<Cb> {
    seq(|os|, i requires 0 <= i < |os| => Client(os[i]))
  }

  function StateOf(k: Kind): State {
    match k case Done => Resolved case Fail => Rejected case Progress => Pending
  }

  function Other(k: Kind): Kind {
    match k case Done => Fail case Fail => Done case Progress => Progress
  }

  function Settler(d: Dfd): Kind {
    match d.state case Resolved => Done case Rejected => Fail case Pending => Progress
  }

  /** The public state with the settled value, which is what the list of that side memorised. */
  function StatusOf(d: Dfd): Status {
    if d.state == Pending then Waiting
    else
      var memory := Get(d, Settler(d)).list.memory;
      Settled(Settler(d), if memory.Some? then memory.value else Undefined)
  }

  ghost predicate Idle<C, D>(l: CList<C, D>) {
    !l.firing && l.current.None? && l.firingStart == 0
  }

  /** A done or fail list of a pending Deferred. */
  ghost predicate Untouched(s: Side, k: Kind) {
    && Idle(s.list) && !s.list.fired && s.list.memory.None? && s.list.stack.None?
    && s.list.options == ONCE_MEMORY
    && s.list.list == Some(Internals(k) + Wrap(s.added))
    && s.calls == []
  }

  /** The list of the side on which the Deferred settled, with value v. */
  ghost predicate Open(s: Side, k: Kind, v: Val) {
    && Wf(s.list) && s.list.fired && s.list.memory == Some(v) && s.list.stack.None?
    && s.list.options == ONCE_MEMORY && s.list.list.Some?
    && |s.calls| <= |s.added|
    && (forall i :: 0 <= i < |s.calls| ==> s.calls[i] == Call(s.added[i], v, StateOf(k)))
    && (s.list.firing ==>
      && s.list.current == Some(v) && 0 <= s.list.firingIndex
      && s.calls != []
      && Todo(s.list) == Wrap(s.added[|s.calls|..]))
    && (!s.list.firing ==> s.list.list.value == [] && |s.calls| == |s.added|)
  }

  /** The list of the other side: nothing was ever called and nothing ever will be. */
  ghost predicate Shut(s: Side) {
    && Idle(s.list) && s.list.list.None? && s.list.stack.None? && s.list.memory.None?
    && s.calls == []
  }

  ghost predicate ProgressOk(s: Side, settled: bool) {
    && Wf(s.list) && s.list.options == MEMORY
    && (s.list.list.Some? ==> forall cb :: cb in s.list.list.value ==> cb.Client? && cb.obs in s.added)
    && (s.list.firing ==> s.list.current == s.list.memory && 0 <= s.list.firingIndex && s.list.list.Some?)
    && (s.list.fired && s.list.list.Some? ==> s.list.memory.Some?)
    && (!s.list.fired ==> s.calls == [])
    && if settled then s.list.stack.None? && (s.list.fired || s.list.list.None?)
       else s.list.stack.Some? && s.list.list == Some(Wrap(s.added))
  }

  ghost predicate DInv(d: Dfd) {
    && ListsWf(d)
    && ProgressOk(d.progress, d.state != Pending)
    && match d.state
       case Pending => Untouched(d.done, Done) && Untouched(d.fail, Fail)
       case Resolved => d.done.list.memory.Some? && Open(d.done, Done, d.done.list.memory.value) && Shut(d.fail)
       case Rejected => d.fail.list.memory.Some? && Open(d.fail, Fail, d.fail.list.memory.value) && Shut(d.done)
  }

  lemma NewDfdInv()
    ensures DInv(NewDfd()) && StatusOf(NewDfd()) == Waiting
  {
    assert Internals(Done) + Wrap([]) == Internals(Done);
    assert Internals(Fail) + Wrap([]) == Internals(Fail);
    forall k: Kind
      ensures NewSide(k).list.list == Some(Internals(k))
    {
      AppendedPlain([], Internals(k));
      assert [] + Internals(k) == Internals(k);
    }
    assert Wrap([]) == [];
  }

  // ----- settling -----

  /** Where a walk over the settling list stands after j of the Deferred's own callbacks. */
  ghost predicate Settling(d0: Dfd, k: Kind, v: Val, j: nat, d: Dfd) {
    var l := Get(d, k).list;
    && j <= 3 && k != Progress
    && ListsWf(d)
    && AtCall(l) && l.firingIndex == j && l.options == ONCE_MEMORY
    && l.list == Some(Internals(k) + Wrap(Get(d0, k).added))
    && l.current == Some(v) && l.memory == Some(v) && l.stack.None?
    && Get(d, k).added == Get(d0, k).added && Get(d, k).calls == []
    && Get(d, Other(k)).added == Get(d0, Other(k)).added
    && d.progress.added == d0.progress.added && d.progress.calls == d0.progress.calls
    && d.progress.list == (if j <= 2 then d0.progress.list else Lock(d0.progress.list))
    && (if j == 0 then d.state == Pending else d.state == StateOf(k))
    && (if j <= 1 then Get(d, Other(k)) == Get(d0, Other(k)) else Shut(Get(d, Other(k))))
  }

  lemma InternalStep(d0: Dfd, k: Kind, v: Val, j: nat, d: Dfd)
    requires Settling(d0, k, v, j, d) && DInv(d0) && d0.state == Pending
    requires j < 2 || (j == 2 && Get(d0, k).added != [])
    ensures Settling(d0, k, v, j + 1, AfterInternal(d, k))
    ensures Drive(d, k) == Drive(AfterInternal(d, k), k)
  {
    InternalSettles(d0, k, v, j, d);
    InternalDrives(d0, k, v, j, d);
  }

  lemma InternalSettles(d0: Dfd, k: Kind, v: Val, j: nat, d: Dfd)
    requires Settling(d0, k, v, j, d) && Untouched(Get(d0, Other(k)), Other(k))
    requires j < 2 || (j == 2 && Get(d0, k).added != [])
    ensures Settling(d0, k, v, j + 1, AfterInternal(d, k))
  {
    hide Settling, Untouched;
    if j == 0 { StateSet(d0, k, v, d); } else if j == 1 { OtherDisabled(d0, k, v, d); } else { ProgressLocked(d0, k, v, d); }
  }

  lemma StateSet(d0: Dfd, k: Kind, v: Val, d: Dfd)
    requires Settling(d0, k, v, 0, d)
    ensures Settling(d0, k, v, 1, AfterInternal(d, k))
  {
    assert Get(d, k).list.list.value[0] == Internals(k)[0];
  }

  lemma OtherDisabled(d0: Dfd, k: Kind, v: Val, d: Dfd)
    requires Settling(d0, k, v, 1, d) && Untouched(Get(d0, Other(k)), Other(k))
    ensures Settling(d0, k, v, 2, AfterInternal(d, k))
  {
    assert Get(d, k).list.list.value[1] == Internals(k)[1];
  }

  lemma ProgressLocked(d0: Dfd, k: Kind, v: Val, d: Dfd)
    requires Settling(d0, k, v, 2, d) && Get(d0, k).added != []
    ensures Settling(d0, k, v, 3, AfterInternal(d, k))
  {
    assert Get(d, k).list.list.value[2] == Internals(k)[2];
  }

  lemma InternalDrives(d0: Dfd, k: Kind, v: Val, j: nat, d: Dfd)
    requires Settling(d0, k, v, j, d) && Settling(d0, k, v, j + 1, AfterInternal(d, k)) && j < 3
    ensures Drive(d, k) == Drive(AfterInternal(d, k), k)
  {
    AfterInternalAdvances(d, k);
    assert Get(d, k).list.list.value[j] == Internals(k)[j];
  }

  lemma LastInternalNobody(d0: Dfd, k: Kind, v: Val, d: Dfd)
    requires Settling(d0, k, v, 2, d) && DInv(d0) && d0.state == Pending && Get(d0, k).added == []
    ensures DInv(Drive(d, k).0) && StatusOf(Drive(d, k).0) == Settled(k, v)
    ensures Drive(d, k).1 == None && !Get(Drive(d, k).0, k).list.firing
    ensures Settles(d0, Drive(d, k).0)
  {
    AfterInternalAdvances(d, k);
    var l := Get(d, k).list;
    assert l.list.value[2] == LockProgress && |l.list.value| == 3;
    assert Get(Internal(d, LockProgress), k) == Get(d, k);
    assert Return(l, false) == Finish(l.(firingIndex := 3));
    assert Drive(d, k) == (AfterInternal(d, k), None);
  }

  lemma FirstClient(d0: Dfd, k: Kind, v: Val, d: Dfd)
    requires Settling(d0, k, v, 3, d) && DInv(d0) && d0.state == Pending && Get(d0, k).added != []
    ensures DInv(Drive(d, k).0) && StatusOf(Drive(d, k).0) == Settled(k, v)
    ensures Drive(d, k).1 == Some(Get(d0, k).added[0])
    ensures Get(Drive(d, k).0, k).list.firing && |Get(Drive(d, k).0, k).calls| == 1
    ensures Settles(d0, Drive(d, k).0)
  {
    var l := Get(d, k).list;
    var added := Get(d0, k).added;
    assert l.list.value[3] == Client(added[0]);
    assert l.list.value[4..] == Wrap(added[1..]);
  }

  /** Settling adds no registration, locks the progress list and leaves its calls and the memorised value alone. */
  ghost predicate Settles(d: Dfd, r: Dfd) {
    && r.done.added == d.done.added && r.fail.added == d.fail.added && r.progress.added == d.progress.added
    && r.progress.calls == d.progress.calls
    && r.progress.list == Lock(d.progress.list)
    && r.progress.list.firing == d.progress.list.firing
    && r.progress.list.memory == d.progress.list.memory
  }

  /** resolve or reject on a pending Deferred: it settles, and the first registered callback of that side is up. */
  lemma SettleEffect(d: Dfd, k: Kind, v: Val)
    requires DInv(d) && d.state == Pending && k != Progress
    ensures var r := FireD(d, k, v);
      && DInv(r.0) && StatusOf(r.0) == Settled(k, v) && Settles(d, r.0)
      && (if Get(d, k).added == [] then r.1 == None && !Get(r.0, k).list.firing
          else r.1 == Some(Get(d, k).added[0]) && Get(r.0, k).list.firing && |Get(r.0, k).calls| == 1)
  {
    var d1 := SettleStart(d, k, v);
    InternalStep(d, k, v, 0, d1);
    var d2 := AfterInternal(d1, k);
    InternalStep(d, k, v, 1, d2);
    var d3 := AfterInternal(d2, k);
    if Get(d, k).added == [] {
      LastInternalNobody(d, k, v, d3);
    } else {
      InternalStep(d, k, v, 2, d3);
      FirstClient(d, k, v, AfterInternal(d3, k));
    }
  }

  lemma SettleStart(d: Dfd, k: Kind, v: Val) returns (d1: Dfd)
    requires DInv(d) && d.state == Pending && k != Progress
    ensures Settling(d, k, v, 0, d1) && FireD(d, k, v) == Drive(d1, k)
  {
    var s := Get(d, k);
    DoWf(s.list, OpFire(v));
    HeadAtCall(s.list.(asked := s.list.asked + [v]), v, true);
    d1 := Set(d, k, s.(list := FireWith(s.list, v)));
  }

  // ----- the other operations -----

  /** Only side k differs, and within it at most one client call was made. */
  ghost predicate OnSide(d: Dfd, r: (Dfd, Option<Observer>), k: Kind) {
    && r.0.state == d.state
    && (k != Done ==> r.0.done == d.done)
    && (k != Fail ==> r.0.fail == d.fail)
    && (k != Progress ==> r.0.progress == d.progress)
    && (r.1.None? ==> Get(r.0, k).calls == Get(d, k).calls)
    && (r.1.Some? ==>
      && Get(r.0, k).list.firing && Get(r.0, k).list.current.Some?
      && Get(r.0, k).calls == Get(d, k).calls + [Call(r.1.value, Get(r.0, k).list.current.value, d.state)])
  }

  /** resolve, reject or notify after settling does nothing at all. */
  lemma FireSettled(d: Dfd, k: Kind, v: Val)
    requires DInv(d) && d.state != Pending
    ensures FireD(d, k, v) == (d, None)
  {
  }

  lemma FireProgress(d: Dfd, v: Val)
    requires DInv(d) && d.state == Pending
    ensures var r := FireD(d, Progress, v);
      && DInv(r.0) && OnSide(d, r, Progress) && r.0.progress.added == d.progress.added
      && (r.1.Some? ==> r.1.value in d.progress.added && !d.progress.list.firing)
      && (r.1.None? ==> r.0.progress.list.firing == d.progress.list.firing)
      && (r.0.progress.list.memory == if d.progress.list.firing then d.progress.list.memory else Some(v))
  {
    var l := d.progress.list;
    DoWf(l, OpFire(v));
    if !l.firing {
      HeadAtCall(l.(asked := l.asked + [v]), v, true);
      var b := Begin(l.(asked := l.asked + [v]), v, true);
      if d.progress.added != [] {
        assert l.list.value[0] == Client(d.progress.added[0]);
      } else {
        assert l.list.value == [];
        assert FireWith(l, v) == Finish(b) == b.(firing := false, current := None);
      }
    }
  }

  lemma AddWaiting(d: Dfd, k: Kind, o: Observer)
    requires DInv(d) && k != Progress && d.state == Pending
    ensures var r := AddD(d, k, o);
      && DInv(r.0) && OnSide(d, r, k) && r.1.None? && Get(r.0, k).added == Get(d, k).added + [o]
      && !Get(r.0, k).list.firing
  {
    var s := Get(d, k);
    AppendedPlain(s.list.list.value, [Client(o)]);
    assert Wrap(s.added + [o]) == Wrap(s.added) + [Client(o)];
    assert Internals(k) + Wrap(s.added) + [Client(o)] == Internals(k) + Wrap(s.added + [o]);
  }

  lemma AddWhileFiring(d: Dfd, k: Kind, o: Observer)
    requires DInv(d) && d.state != Pending && k == Settler(d) && Get(d, k).list.firing
    ensures var r := AddD(d, k, o);
      && DInv(r.0) && OnSide(d, r, k) && Get(r.0, k).added == Get(d, k).added + [o]
      && StatusOf(r.0) == StatusOf(d)
      && Get(r.0, k).list.firing && r.1.None?
  {
    var s := Get(d, k);
    var l := s.list;
    DoWf(l, OpAdd([Client(o)]));
    AppendedPlain(l.list.value, [Client(o)]);
    var n := |s.calls|;
    assert (s.added + [o])[n..] == s.added[n..] + [o];
    assert Wrap(s.added[n..] + [o]) == Wrap(s.added[n..]) + [Client(o)];
    assert (l.list.value + [Client(o)])[l.firingIndex + 1..] == l.list.value[l.firingIndex + 1..] + [Client(o)];
  }

  lemma AddWhileIdle(d: Dfd, k: Kind, o: Observer)
    requires DInv(d) && d.state != Pending && k == Settler(d) && !Get(d, k).list.firing
    ensures var r := AddD(d, k, o);
      && DInv(r.0) && OnSide(d, r, k) && Get(r.0, k).added == Get(d, k).added + [o]
      && StatusOf(r.0) == StatusOf(d)
      && Get(r.0, k).list.firing && r.1 == Some(o)
  {
    var s := Get(d, k);
    var l := s.list;
    DoWf(l, OpAdd([Client(o)]));
    AppendedPlain(l.list.value, [Client(o)]);
    HeadAtCall(l.(list := Some([Client(o)]), firingStart := 0), l.memory.value, false);
    assert l.list.value + [Client(o)] == [Client(o)];
    assert [Client(o)][0 + 1..] == Wrap([]);
    assert (s.added + [o])[|s.calls| + 1..] == [];
  }

  /** A callback added to the settled side runs at once, or in its turn if that list is firing. */
  lemma AddSettled(d: Dfd, k: Kind, o: Observer)
    requires DInv(d) && d.state != Pending && k == Settler(d)
    ensures var r := AddD(d, k, o);
      && DInv(r.0) && OnSide(d, r, k) && Get(r.0, k).added == Get(d, k).added + [o]
      && StatusOf(r.0) == StatusOf(d)
      && Get(r.0, k).list.firing
      && r.1 == if Get(d, k).list.firing then None else Some(o)
  {
    if Get(d, k).list.firing { AddWhileFiring(d, k, o); } else { AddWhileIdle(d, k, o); }
  }

  lemma AddShut(d: Dfd, k: Kind, o: Observer)
    requires DInv(d) && d.state != Pending && k == Other(Settler(d))
    ensures var r := AddD(d, k, o);
      && DInv(r.0) && OnSide(d, r, k) && r.1.None? && Get(r.0, k).added == Get(d, k).added + [o]
      && StatusOf(r.0) == StatusOf(d)
  {
  }

  lemma AddProgress(d: Dfd, o: Observer)
    requires DInv(d)
    ensures var r := AddD(d, Progress, o);
      && DInv(r.0) && OnSide(d, r, Progress) && r.0.progress.added == d.progress.added + [o]
      && StatusOf(r.0) == StatusOf(d)
      && (r.1.Some? ==> r.1.value == o && !d.progress.list.firing)
      && (r.1.None? ==> r.0.progress.list.firing == d.progress.list.firing)
      && r.0.progress.list.memory == d.progress.list.memory
      && (r.1.Some? ==> r.0.progress.list.current == d.progress.list.memory)
  {
    var l := d.progress.list;
    DoWf(l, OpAdd([Client(o)]));
    if l.list.Some? {
      AppendedPlain(l.list.value, [Client(o)]);
      assert Wrap(d.progress.added + [o]) == Wrap(d.progress.added) + [Client(o)];
      if !l.firing && l.memory.Some? {
        HeadAtCall(l.(list := Some(l.list.value + [Client(o)]), firingStart := |l.list.value|), l.memory.value, false);
      }
    }
  }

  lemma FiringIsSettled(d: Dfd, k: Kind)
    requires DInv(d) && k != Progress && Get(d, k).list.firing
    ensures d.state != Pending && k == Settler(d)
  {
  }

  lemma FinishedMore(d: Dfd, k: Kind)
    requires DInv(d) && d.state != Pending && k == Settler(d) && Get(d, k).list.firing
    requires |Get(d, k).calls| < |Get(d, k).added|
    ensures var r := FinishedD(d, k);
      && DInv(r.0) && OnSide(d, r, k) && Get(r.0, k).added == Get(d, k).added
      && StatusOf(r.0) == StatusOf(d)
      && r.1 == Some(Get(d, k).added[|Get(d, k).calls|])
  {
    var s := Get(d, k);
    var l := s.list;
    var n := |s.calls|;
    ReturnAdvances(l);
    assert Todo(l)[0] == Wrap(s.added[n..])[0] == Client(s.added[n]);
    assert l.list.value[l.firingIndex + 1] == Client(s.added[n]);
    assert Todo(l)[1..] == Wrap(s.added[n + 1..]);
    assert l.list.value[l.firingIndex + 2..] == Todo(l)[1..];
  }

  lemma FinishedLast(d: Dfd, k: Kind)
    requires DInv(d) && d.state != Pending && k == Settler(d) && Get(d, k).list.firing
    requires |Get(d, k).calls| == |Get(d, k).added|
    ensures var r := FinishedD(d, k);
      && DInv(r.0) && OnSide(d, r, k) && Get(r.0, k).added == Get(d, k).added
      && StatusOf(r.0) == StatusOf(d)
      && r.1.None? && !Get(r.0, k).list.firing
  {
    var l := Get(d, k).list;
    assert |Todo(l)| == 0;
    assert Return(l, false) == Finish(l.(firingIndex := l.firingIndex + 1));
    assert Return(l, false) == l.(firingIndex := l.firingIndex + 1, firing := false, current := None, list := Some([]));
  }

  lemma FinishedSettled(d: Dfd, k: Kind)
    requires DInv(d) && k != Progress && Get(d, k).list.firing
    ensures d.state != Pending && k == Settler(d)
    ensures var r := FinishedD(d, k);
      && DInv(r.0) && OnSide(d, r, k) && Get(r.0, k).added == Get(d, k).added
      && StatusOf(r.0) == StatusOf(d)
      && (if |Get(d, k).calls| < |Get(d, k).added|
          then r.1 == Some(Get(d, k).added[|Get(d, k).calls|])
          else r.1.None? && !Get(r.0, k).list.firing)
  {
    FiringIsSettled(d, k);
    if |Get(d, k).calls| < |Get(d, k).added| { FinishedMore(d, k); } else { FinishedLast(d, k); }
  }

  lemma FinishedProgress(d: Dfd)
    requires DInv(d) && d.progress.list.firing
    ensures var r := FinishedD(d, Progress);
      && DInv(r.0) && OnSide(d, r, Progress) && r.0.progress.added == d.progress.added
      && StatusOf(r.0) == StatusOf(d)
      && (r.1.Some? ==> r.1.value in d.progress.added)
      && (r.1.None? ==> !r.0.progress.list.firing)
      && (d.state != Pending ==> r.0.progress.list.memory == d.progress.list.memory)
  {
    var l := d.progress.list;
    ReturnAdvances(l);
    var l1 := l.(firingIndex := l.firingIndex + 1);
    if l1.firingIndex < l1.firingLength {
      assert l.list.value[l1.firingIndex] in l.list.value;
    } else {
      FinishProgress(l1, d.progress.added, d.state != Pending);
    }
  }

  lemma FinishProgress(l: CList<Cb, Val>, added: seq<Observer>, settled: bool)
    requires l.options == MEMORY && l.firingStart == 0 && l.fired && l.memory.Some? && l.list.Some?
    requires forall cb :: cb in l.list.value ==> cb.Client? && cb.obs in added
    requires settled ==> l.stack.None?
    requires !settled ==> l.stack.Some? && l.list.value == Wrap(added)
    ensures var r := Finish(l);
      && ProgressOk(Side(r, added, []), settled)
      && (settled ==> r.memory == l.memory && !r.firing)
      && (r.firing ==> r.list.value[r.firingIndex].Client? && r.list.value[r.firingIndex].obs in added)
    decreases StackSize(l)
  {
    FinishWf(l);
    if l.stack.Some? && |l.stack.value| > 0 {
      FinishAtCall(l);
      var l1 := l.(firing := false, current := None, stack := Some(l.stack.value[1..]));
      var b := Begin(l1, l.stack.value[0], true);
      if b.firingIndex >= b.firingLength { FinishProgress(b, added, settled); }
      else { assert b.list.value[0] in b.list.value; }
    }
  }
}
