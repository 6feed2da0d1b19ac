/**
 The progress side of a Deferred: it is the callback list of that side, driven by
 progress, notify and the returns of its callbacks, and locked by settling.
 */
module DeferredProgress {
  import opened Prelude
  import opened CallbackList
  import opened CallbackQueue
  import opened CallbackRuns
  import opened CallbackViews
  import opened Observers
  import opened Deferred
  import opened DeferredRuns
  import opened DeferredLife

  // ----- the operations on the progress list -----

  /** What one operation on the Deferred does to its progress list; settled: it was settled before. */
  function ListOp(op: DOp, settled: bool): seq<Op<Cb, Val>> {
    match op
    case Register(k, o) => if k == Progress then [OpAdd([Client(o)])] else []
    case Fire(k, v) => if k == Progress then [OpFire(v)] else if settled then [] else [OpLock]
    case Finished(k) => if k == Progress then [OpReturn(false)] else []
  }

  function IsSettlement(op: DOp): bool {
    op.Fire? && op.kind != Progress
  }

  function ListOps(ops: seq<DOp>, settled: bool): seq<Op<Cb, Val>>
    decreases |ops|
  {
    if ops == [] then [] else ListOp(ops[0], settled) + ListOps(ops[1..], settled || IsSettlement(ops[0]))
  }

  // ----- calls -----

  /** Who was called with what, according to a list. */
  function Calls(log: seq<Event<Cb, Val>>): seq<(Observer, Val)> {
    if log == [] then []
    else
      var last := log[|log| - 1];
      Calls(log[..|log| - 1]) + if last.Called? && last.cb.Client? then [(last.cb.obs, last.arg)] else []
  }

  /** The same, according to the Deferred. */
  function Made(calls: seq<Call>): seq<(Observer, Val)> {
    seq(|calls|, i requires 0 <= i < |calls| => (calls[i].obs, calls[i].arg))
  }

  lemma {:induction false} CallsStep(log: seq<Event<Cb, Val>>, e: Event<Cb, Val>)
    ensures Calls(log + [e]) == Calls(log) + if e.Called? && e.cb.Client? then [(e.cb.obs, e.arg)] else []
  {
    assert (log + [e])[..|log|] == log;
  }

  /** The callback that a firing list has just called. */
  function Up(l: CList<Cb, Val>): seq<(Observer, Val)> {
    if l.firing && l.list.Some? && 0 <= l.firingIndex < |l.list.value| && l.list.value[l.firingIndex].Client? && l.current.Some?
    then [(l.list.value[l.firingIndex].obs, l.current.value)] else []
  }

  /** Going on calls one callback at most, the one that is then up. */
  lemma {:induction false} HeadCalls(l: CList<Cb, Val>)
    requires l.firing && l.current.Some? && 0 <= l.firingIndex
    requires l.list.Some? ==> l.firingLength == |l.list.value|
    ensures Calls(Head(l).log) == Calls(l.log) + Up(Head(l))
    decreases StackSize(l), 1
  {
    if l.list.Some? && l.firingIndex < l.firingLength {
      CallsStep(l.log, Called(l.list.value[l.firingIndex], l.current.value));
    } else {
      FinishCalls(l);
    }
  }

  lemma {:induction false} FinishCalls(l: CList<Cb, Val>)
    ensures Calls(Finish(l).log) == Calls(l.log) + Up(Finish(l))
    decreases StackSize(l), 0
  {
    var l1 := l.(firing := false, current := None);
    assert Calls(l.log) + [] == Calls(l.log);
    if l.list.Some? && l.stack.Some? && |l.stack.value| > 0 {
      var b := Begin(l1.(stack := Some(l.stack.value[1..])), l.stack.value[0], true);
      CallsStep(l.log, Started(l.stack.value[0], true));
      assert Calls(b.log) == Calls(l.log);
      HeadCalls(b);
    }
  }

  lemma {:induction false} BeginCalls(l: CList<Cb, Val>, data: Val, requested: bool)
    requires l.list.Some?
    ensures Calls(Head(Begin(l, data, requested)).log) == Calls(l.log) + Up(Head(Begin(l, data, requested)))
  {
    CallsStep(l.log, Started(data, requested));
    assert Calls(l.log) + [] == Calls(l.log);
    HeadCalls(Begin(l, data, requested));
  }

  /** The progress side agrees with its list. */
  ghost predicate Agrees(d: Dfd) {
    Made(d.progress.calls) == Calls(d.progress.list.log)
  }

  lemma {:induction false} MadeOne(calls: seq<Call>, c: Call)
    ensures Made(calls + [c]) == Made(calls) + [(c.obs, c.arg)]
  {
  }

  // ----- only client callbacks are on it -----

  ghost predicate AllClients(l: CList<Cb, Val>) {
    l.list.Some? ==> forall cb :: cb in l.list.value ==> cb.Client?
  }

  lemma {:induction false} HeadClients(l: CList<Cb, Val>)
    requires AllClients(l) && l.firing && l.current.Some? && 0 <= l.firingIndex
    requires l.list.Some? ==> l.firingLength == |l.list.value|
    ensures AllClients(Head(l))
    decreases StackSize(l), 1
  {
    if !(l.list.Some? && l.firingIndex < l.firingLength) { FinishClients(l); }
  }

  lemma {:induction false} FinishClients(l: CList<Cb, Val>)
    requires AllClients(l)
    ensures AllClients(Finish(l))
    decreases StackSize(l), 0
  {
    if l.list.Some? && l.stack.Some? && |l.stack.value| > 0 {
      HeadClients(Begin(l.(firing := false, current := None, stack := Some(l.stack.value[1..])), l.stack.value[0], true));
    }
  }

  /** A client callback that is up is recorded by the Deferred. */
  lemma {:induction false} DriveRecords(d: Dfd)
    requires ListsWf(d) && AtCall(d.progress.list) && AllClients(d.progress.list)
    ensures var r := Drive(d, Progress).0;
      && r.progress.list == d.progress.list && r.state == d.state
      && Made(r.progress.calls) == Made(d.progress.calls) + Up(d.progress.list)
  {
    var l := d.progress.list;
    assert l.list.value[l.firingIndex] in l.list.value;
    MadeOne(d.progress.calls, Call(l.list.value[l.firingIndex].obs, l.current.value, d.state));
  }

  // ----- every operation -----

  /** The operation on the Deferred is that operation on its list, and records what the list calls. */
  ghost predicate OnList(d: Dfd, op: Op<Cb, Val>, r: Dfd)
    requires Wf(d.progress.list)
  {
    r.progress.list == Do(d.progress.list, op) && Agrees(r)
  }

  lemma {:induction false} RegisterFollows(d: Dfd, o: Observer)
    requires DInv(d) && Agrees(d)
    ensures OnList(d, OpAdd([Client(o)]), AddD(d, Progress, o).0)
  {
    var l := d.progress.list;
    DoWf(l, OpAdd([Client(o)]));
    var list := Add(l, [Client(o)]);
    if l.list.Some? { AppendedPlain(l.list.value, [Client(o)]); }
    if list.firing && !l.firing {
      var l1 := l.(list := Some(Appended(l.list.value, [Client(o)], l.options.unique)), firingStart := |l.list.value|);
      HeadAtCall(l1, l.memory.value, false);
      BeginCalls(l1, l.memory.value, false);
      HeadClients(Begin(l1, l.memory.value, false));
      DriveRecords(d.(progress := d.progress.(list := list, added := d.progress.added + [o])));
    } else {
      QuietAdd(l, o);
    }
  }

  lemma {:induction false} QuietAdd(l: CList<Cb, Val>, o: Observer)
    requires Wf(l) && !(Add(l, [Client(o)]).firing && !l.firing)
    ensures Calls(Add(l, [Client(o)]).log) == Calls(l.log)
  {
    if l.list.Some? && !l.firing && l.memory.Some? {
      var l1 := l.(list := Some(Appended(l.list.value, [Client(o)], l.options.unique)), firingStart := |l.list.value|);
      BeginCalls(l1, l.memory.value, false);
    }
  }

  lemma {:induction false} FireCalls(l: CList<Cb, Val>, v: Val)
    requires Wf(l) && AllClients(l)
    ensures var r := FireWith(l, v);
      && Wf(r) && AllClients(r) && (r.firing && !l.firing ==> AtCall(r))
      && Calls(r.log) == Calls(l.log) + if r.firing && !l.firing then Up(r) else []
  {
    DoWf(l, OpFire(v));
    assert Calls(l.log) + [] == Calls(l.log);
    var l1 := l.(asked := l.asked + [v]);
    if l.list.Some? && (!l.fired || l.stack.Some?) && !l.firing {
      BeginCalls(l1, v, true);
      HeadClients(Begin(l1, v, true));
      HeadAtCall(l1, v, true);
    }
  }

  lemma {:induction false} NotifyFollows(d: Dfd, v: Val)
    requires DInv(d) && Agrees(d)
    ensures OnList(d, OpFire(v), FireD(d, Progress, v).0)
  {
    var l := d.progress.list;
    assert ListsWf(d) && AllClients(l);
    FireCalls(l, v);
    hide DInv, ProgressOk, Calls, FireWith, Drive, AtCall, Up, AllClients, Wf;
    var list := FireWith(l, v);
    if list.firing && !l.firing { DriveRecords(d.(progress := d.progress.(list := list))); }
    else { assert Calls(l.log) + [] == Calls(l.log); }
  }

  lemma {:induction false} ReturnFollows(d: Dfd)
    requires DInv(d) && Agrees(d)
    ensures OnList(d, OpReturn(false), FinishedD(d, Progress).0)
  {
    var l := d.progress.list;
    if l.firing {
      ReturnAdvances(l);
      var list := Return(l, false);
      var l1 := l.(firingIndex := l.firingIndex + 1);
      HeadCalls(l1);
      HeadClients(l1);
      if list.firing { DriveRecords(d.(progress := d.progress.(list := list))); }
    }
  }

  lemma {:induction false} SettleFollows(d: Dfd, k: Kind, v: Val)
    requires DInv(d) && Agrees(d) && k != Progress && d.state == Pending
    ensures OnList(d, OpLock, FireD(d, k, v).0)
  {
    SettleEffect(d, k, v);
  }

  /** The other sides have nothing to do with it. */
  lemma {:induction false} ElsewhereFollows(d: Dfd, op: DOp)
    requires DInv(d) && (op.Fire? ==> op.kind != Progress && d.state != Pending) && (op.Register? ==> op.kind != Progress)
    requires op.Finished? ==> op.kind != Progress
    ensures DoD(d, op).progress == d.progress
  {
    match op
    case Fire(k, v) => FireSettled(d, k, v);
    case Register(k, o) =>
      if d.state == Pending { AddWaiting(d, k, o); } else if k == Settler(d) { AddSettled(d, k, o); } else { AddShut(d, k, o); }
    case Finished(k) => if Get(d, k).list.firing { FinishedSettled(d, k); }
  }

  lemma {:induction false} StepFollows(d: Dfd, op: DOp)
    requires DInv(d) && Agrees(d)
    ensures DInv(DoD(d, op)) && Agrees(DoD(d, op))
    ensures Wf(d.progress.list) && DoD(d, op).progress.list == Run(d.progress.list, ListOp(op, d.state != Pending))
    ensures (DoD(d, op).state != Pending) == (d.state != Pending || IsSettlement(op))
  {
    StepLife(d, op);
    OneOp(op);
    assert StatusOf(DoD(d, op)).Waiting? <==> DoD(d, op).state == Pending;
    var ops := ListOp(op, d.state != Pending);
    hide DInv, FireD, AddD, FinishedD, StatusOf, FirstSettlement;
    assert Wf(d.progress.list);
    if ops == [] {
      ElsewhereFollows(d, op);
    } else {
      assert ops == [ops[0]] && ops[1..] == [];
      assert Run(d.progress.list, ops) == Do(d.progress.list, ops[0]);
      match op
      case Register(k, o) => RegisterFollows(d, o);
      case Fire(k, v) => if k == Progress { NotifyFollows(d, v); } else { SettleFollows(d, k, v); }
      case Finished(k) => ReturnFollows(d);
    }
  }

  // ----- whole runs -----

  lemma {:induction false} RunConcat<C, D>(l: CList<C, D>, a: seq<Op<C, D>>, b: seq<Op<C, D>>)
    requires Wf(l)
    ensures Run(l, a + b) == Run(Run(l, a), b)
    decreases |a|
  {
    if a == [] {
      assert a + b == b;
    } else {
      assert (a + b)[1..] == a[1..] + b;
      DoWf(l, a[0]);
      RunConcat(Do(l, a[0]), a[1..], b);
    }
  }

  lemma {:induction false} RunFollows(d: Dfd, ops: seq<DOp>)
    requires DInv(d) && Agrees(d)
    ensures Wf(d.progress.list) && RunD(d, ops).progress.list == Run(d.progress.list, ListOps(ops, d.state != Pending))
    ensures Agrees(RunD(d, ops))
    decreases |ops|
  {
    if ops != [] {
      StepFollows(d, ops[0]);
      hide DInv, Agrees, DoD, IsSettlement, ListOp, Wf;
      RunFollows(DoD(d, ops[0]), ops[1..]);
      RunConcat(d.progress.list, ListOp(ops[0], d.state != Pending), ListOps(ops[1..], DoD(d, ops[0]).state != Pending));
    }
  }

  lemma {:induction false} NewProgress()
    ensures NewDfd().progress.list == New(MEMORY) && Agrees(NewDfd())
  {
    assert Calls([]) == [] && Made([]) == [];
  }

  /**
   Whatever client code does, in whatever order and however nested: the progress list
   is a callback list with memory to which the callbacks were added, which was fired
   by the notifications and locked by the first settlement; and the callbacks run are
   exactly those that this list calls.
   */
  lemma {:induction false} ProgressIsItsList(ops: seq<DOp>)
    ensures var d := RunD(NewDfd(), ops);
      && d.progress.list == Run(New(MEMORY), ListOps(ops, false))
      && Made(d.progress.calls) == Calls(d.progress.list.log)
  {
    NewDfdInv();
    NewProgress();
    RunFollows(NewDfd(), ops);
  }

  // ----- while the Deferred is pending -----

  /** The values it was notified with. */
  function Notified(ops: seq<DOp>): seq<Val> {
    if ops == [] then []
    else (if ops[0].Fire? && ops[0].kind == Progress then [ops[0].arg] else []) + Notified(ops[1..])
  }

  /** What o was called with. */
  function ArgsOf(calls: seq<(Observer, Val)>, o: Observer): seq<Val> {
    if calls == [] then []
    else
      var last := calls[|calls| - 1];
      ArgsOf(calls[..|calls| - 1], o) + if last.0 == o then [last.1] else []
  }

  lemma {:induction false} ArgsStep(calls: seq<(Observer, Val)>, c: (Observer, Val), o: Observer)
    ensures ArgsOf(calls + [c], o) == ArgsOf(calls, o) + if c.0 == o then [c.1] else []
  {
    assert (calls + [c])[..|calls|] == calls;
  }

  lemma {:induction false} SeenIsArgs(log: seq<Event<Cb, Val>>, o: Observer)
    ensures SeenBy(log, Client(o)) == ArgsOf(Calls(log), o)
  {
    if log != [] {
      var before, last := log[..|log| - 1], log[|log| - 1];
      SeenIsArgs(before, o);
      assert Calls(before) + [] == Calls(before);
      if last.Called? && last.cb.Client? { ArgsStep(Calls(before), (last.cb.obs, last.arg), o); }
    }
  }

  /** No settlement, and o is not registered for progress. */
  ghost predicate Bystanding(ops: seq<DOp>, o: Observer) {
    forall op :: op in ops ==> !IsSettlement(op) && op != Register(Progress, o)
  }

  lemma {:induction false} PendingOps(ops: seq<DOp>, o: Observer)
    requires Bystanding(ops, o)
    ensures Alone(ListOps(ops, false), Client(o), false)
    ensures FirstSettlement(ops).Waiting?
    decreases |ops|
  {
    if ops != [] {
      assert ops[0] in ops && forall op :: op in ops[1..] ==> op in ops;
      PendingOps(ops[1..], o);
    }
  }

  lemma {:induction false} OpsCons(op: DOp, ops: seq<DOp>)
    requires !IsSettlement(op)
    ensures ListOps([op] + ops, false) == ListOp(op, false) + ListOps(ops, false)
    ensures Notified([op] + ops) == Notified([op]) + Notified(ops)
  {
    assert ([op] + ops)[1..] == ops && [op][1..] == [];
  }

  lemma {:induction false} OpsConcat(a: seq<DOp>, b: seq<DOp>)
    requires forall op :: op in a ==> !IsSettlement(op)
    ensures ListOps(a + b, false) == ListOps(a, false) + ListOps(b, false)
    ensures Notified(a + b) == Notified(a) + Notified(b)
    decreases |a|
  {
    if a == [] {
      assert a + b == b;
    } else {
      var op, rest := a[0], a[1..];
      assert op in a && forall x :: x in rest ==> x in a;
      OpsConcat(rest, b);
      assert a == [op] + rest && a + b == [op] + (rest + b);
      hide ListOps, Notified, ListOp, IsSettlement;
      OpsCons(op, rest + b);
      OpsCons(op, rest);
      Regroup(ListOp(op, false), ListOps(rest, false), ListOps(b, false));
      Regroup(Notified([op]), Notified(rest), Notified(b));
    }
  }

  lemma {:induction false} AskedAreNotified(q: Queue<Cb, Val>, ops: seq<DOp>)
    requires Fifo(q) && forall op :: op in ops ==> !IsSettlement(op)
    ensures Fifo(QRun(q, ListOps(ops, false))) && QRun(q, ListOps(ops, false)).asked == q.asked + Notified(ops)
    decreases |ops|
  {
    if ops == [] {
      assert q.asked + [] == q.asked;
    } else {
      var op, rest := ops[0], ops[1..];
      assert op in ops && forall x :: x in rest ==> x in ops;
      assert ops == [op] + rest;
      OpsCons(op, rest);
      var q1 := OneNotified(q, op, ListOps(rest, false));
      hide Fifo, QRun, QDo, ListOps, ListOp, Notified, IsSettlement;
      AskedAreNotified(q1, rest);
      Regroup(q.asked, Notified([op]), Notified(rest));
    }
  }

  lemma {:induction false} OneNotified(q: Queue<Cb, Val>, op: DOp, more: seq<Op<Cb, Val>>) returns (q1: Queue<Cb, Val>)
    requires Fifo(q) && !IsSettlement(op)
    ensures Fifo(q1) && QRun(q, ListOp(op, false) + more) == QRun(q1, more) && q1.asked == q.asked + Notified([op])
  {
    var first := ListOp(op, false);
    assert [op][1..] == [];
    if first == [] {
      q1 := q;
      assert [] + more == more && q.asked + [] == q.asked;
    } else {
      q1 := QDo(q, first[0]);
      assert (first + more)[0] == first[0] && (first + more)[1..] == more;
      AskedStep(q, first[0]);
      FifoStep(q, first[0]);
      assert q.asked + [] == q.asked;
    }
  }

  lemma {:induction false} Regroup<T>(a: seq<T>, b: seq<T>, c: seq<T>)
    ensures a + b + c == a + (b + c)
  {
  }

  /** While pending every notification is accepted, begun in order, and when the list is idle none is left. */
  lemma {:induction false} NotificationsInOrder(ops: seq<DOp>)
    requires forall op :: op in ops ==> !IsSettlement(op)
    ensures var l := RunD(NewDfd(), ops).progress.list;
      && l.asked == Notified(ops) && Unmixed(l.log) && l.stack.Some?
      && Begun(l.log) + l.stack.value == Notified(ops)
      && (!l.firing ==> Begun(l.log) == Notified(ops))
  {
    ProgressIsItsList(ops);
    var l0 := New<Cb, Val>(MEMORY);
    assert Fifo(View(l0));
    RunRefines(l0, ListOps(ops, false));
    AskedAreNotified(View(l0), ops);
    assert [] + Notified(ops) == Notified(ops);
  }

  /**
   As long as the Deferred is pending, whatever client code does: a progress callback
   registered once is called with the value whose notification was begun last before,
   if any, and with every later one, in order and once each, and none is missing when
   the list is idle. The notifications waiting at its registration come later, too.
   */
  lemma {:induction false} EachProgressCallbackSees(before: seq<DOp>, o: Observer, after: seq<DOp>)
    requires Bystanding(before, o) && Bystanding(after, o)
    ensures var ops := before + [Register(Progress, o)] + after;
      SeesItsPart(RunD(NewDfd(), before), RunD(NewDfd(), ops), o, Notified(before), Notified(ops))
  {
    var ops := before + [Register(Progress, o)] + after;
    NotificationsInOrder(before);
    PendingOps(before, o);
    PendingOps(after, o);
    ThreeParts(before, o, after);
    NotificationsInOrder(ops);
    ProgressIsItsList(before);
    ProgressIsItsList(ops);
    var d1, d := RunD(NewDfd(), before), RunD(NewDfd(), ops);
    SeenIsArgs(d.progress.list.log, o);
    hide RunD, NewDfd, ListOps, Notified, Made, Calls, SeenBy, Alone, Bystanding, Run, Wf, IsSettlement;
    AsOnList(ListOps(before, false), o, ListOps(after, false), d1.progress.list, d.progress.list);
  }

  /** d1: the Deferred when o was registered; of the values notified then, some may be waiting still. */
  ghost predicate SeesItsPart(d1: Dfd, d: Dfd, o: Observer, notified1: seq<Val>, notified: seq<Val>) {
    && d1.progress.list.stack.Some? && |d1.progress.list.stack.value| <= |notified1|
    && var start := FirstSeen(|notified1| - |d1.progress.list.stack.value|);
      && start <= |notified|
      && ArgsOf(Made(d.progress.calls), o) <= notified[start..]
      && (!d.progress.list.firing ==> ArgsOf(Made(d.progress.calls), o) == notified[start..])
  }

  /** The same on the progress list. */
  lemma {:induction false} AsOnList(before: seq<Op<Cb, Val>>, o: Observer, after: seq<Op<Cb, Val>>, l: CList<Cb, Val>, r: CList<Cb, Val>)
    requires Alone(before, Client(o), false) && Alone(after, Client(o), false)
    requires l == Run(New(MEMORY), before) && r == Run(New(MEMORY), before + [OpAdd([Client(o)])] + after)
    ensures var start := FirstSeen(|Begun(l.log)|);
      && start <= |r.asked|
      && SeenBy(r.log, Client(o)) <= r.asked[start..]
      && (!r.firing ==> SeenBy(r.log, Client(o)) == r.asked[start..])
  {
    var l0, add := New<Cb, Val>(MEMORY), OpAdd([Client(o)]);
    RunConcat(l0, before + [add], after);
    RunConcat(l0, before, [add]);
    assert Run(l, [add]) == Add(l, [Client(o)]) by { assert [add][1..] == []; DoWf(l, add); }
    SeesFromItsTime(MEMORY, before, Client(o), after);
  }

  lemma {:induction false} ThreeParts(before: seq<DOp>, o: Observer, after: seq<DOp>)
    requires Bystanding(before, o) && Bystanding(after, o)
    ensures var ops := before + [Register(Progress, o)] + after;
      && (forall op :: op in ops ==> !IsSettlement(op))
      && ListOps(ops, false) == ListOps(before, false) + [OpAdd([Client(o)])] + ListOps(after, false)
  {
    var one := [Register(Progress, o)];
    OpsCons(one[0], []);
    assert one + [] == one;
    hide ListOps, Notified;
    OpsConcat(before, one);
    OpsConcat(before + one, after);
    NoOps();
  }

  lemma NoOps()
    ensures ListOps([], false) == []
  {
  }
}
