/** Whole-run properties of one callback list under arbitrary re-entrant use. */
module CallbackRuns {
  import opened Prelude
  import opened CallbackList
  import opened CallbackQueue

  /** The requests whose walk has begun, in order. */
  function Begun<C, D>(log: seq<Event<C, D>>): seq<D> {
    if log == [] then []
    else
      var last := log[|log| - 1];
      var before := Begun(log[..|log| - 1]);
      if last.Started? && last.requested then before + [last.data] else before
  }

  /** The argument of the walk begun last. */
  function Owner<C, D>(log: seq<Event<C, D>>): Option<D> {
    if log == [] then None
    else if log[|log| - 1].Started? then Some(log[|log| - 1].data)
    else Owner(log[..|log| - 1])
  }

  /** Every call belongs to the walk begun last before it: walks do not interleave. */
  ghost predicate Unmixed<C, D>(log: seq<Event<C, D>>) {
    log != [] ==>
      && Unmixed(log[..|log| - 1])
      && (log[|log| - 1].Called? ==> Owner(log[..|log| - 1]) == Some(log[|log| - 1].arg))
  }

  lemma LogStep<C, D>(log: seq<Event<C, D>>, e: Event<C, D>)
    ensures Begun(log + [e]) == if e.Started? && e.requested then Begun(log) + [e.data] else Begun(log)
    ensures Owner(log + [e]) == if e.Started? then Some(e.data) else Owner(log)
    ensures Unmixed(log + [e]) <==> Unmixed(log) && (e.Called? ==> Owner(log) == Some(e.arg))
  {
    assert (log + [e])[..|log|] == log;
  }

  ghost predicate Repeatable(op: Op)
  {
    !op.OpLock? && !op.OpDisable?
  }

  /** FIFO: begun requests followed by the waiting ones are the accepted ones. */
  ghost predicate Fifo<C, D>(q: Queue<C, D>) {
    && q.list.Some? && q.waiting.Some? && !q.options.once
    && Begun(q.log) + q.waiting.value == q.asked
    && Unmixed(q.log)
    && (q.batch.Some? ==> Owner(q.log) == Some(q.batch.value.data))
    && (q.batch.None? ==> q.waiting.value == [])
  }

  lemma FifoNext<C, D>(q: Queue<C, D>, data: D, todo: seq<C>)
    requires q.list.Some? && q.waiting.Some? && !q.options.once
    requires Begun(q.log) + q.waiting.value == q.asked
    requires Unmixed(q.log) && Owner(q.log) == Some(data)
    ensures Fifo(QNext(q, data, todo))
    decreases Waiting(q), 1
  {
    if todo != [] {
      LogStep(q.log, Called(todo[0], data));
    } else {
      FifoFinish(q);
    }
  }

  lemma FifoFinish<C, D>(q: Queue<C, D>)
    requires q.list.Some? && q.waiting.Some? && !q.options.once
    requires Begun(q.log) + q.waiting.value == q.asked
    requires Unmixed(q.log)
    ensures Fifo(QFinish(q))
    decreases Waiting(q), 0
  {
    if |q.waiting.value| > 0 {
      FifoStart(q.(batch := None, waiting := Some(q.waiting.value[1..])), q.waiting.value[0], q.list.value, true);
    }
  }

  lemma FifoStart<C, D>(q: Queue<C, D>, data: D, todo: seq<C>, requested: bool)
    requires q.list.Some? && q.waiting.Some? && !q.options.once
    requires Begun(q.log) + (if requested then [data] else []) + q.waiting.value == q.asked
    requires Unmixed(q.log)
    ensures Fifo(QStart(q, data, todo, requested))
    decreases Waiting(q), 2
  {
    LogStep(q.log, Started(data, requested));
    FifoNext(q.(memory := if q.options.memory then Some(data) else None, fired := true,
                log := q.log + [Started(data, requested)]), data, todo);
  }

  lemma FifoStep<C, D>(q: Queue<C, D>, op: Op<C, D>)
    requires Fifo(q) && Repeatable(op)
    ensures Fifo(QDo(q, op))
  {
    match op
    case OpAdd(cbs) =>
      if q.batch.None? && q.memory.Some? {
        var list := Appended(q.list.value, cbs, q.options.unique);
        FifoStart(q.(list := Some(list)), q.memory.value, list[|q.list.value|..], false);
      }
    case OpRemove(cb) =>
    case OpFire(data) =>
      if q.batch.None? {
        FifoStart(q.(asked := q.asked + [data]), data, q.list.value, true);
      }
    case OpReturn(refused) =>
      if q.batch.Some? {
        if refused && q.options.stopOnFalse { FifoFinish(q.(memory := None)); }
        else { FifoNext(q, q.batch.value.data, q.batch.value.todo); }
      }
  }

  lemma {:induction false} FifoRun<C, D>(q: Queue<C, D>, ops: seq<Op<C, D>>)
    requires Fifo(q) && forall op :: op in ops ==> Repeatable(op)
    ensures Fifo(QRun(q, ops))
    decreases |ops|
  {
    if ops != [] {
      FifoStep(q, ops[0]);
      FifoRun(QDo(q, ops[0]), ops[1..]);
    }
  }

  /**
   A repeatable list that is neither locked nor disabled, driven by any code at
   all: walks never interleave, accepted requests begin exactly once each and in
   order, and once the outermost fire is over none is left waiting.
   */
  lemma RequestsRunInOrder<C, D>(options: Options, ops: seq<Op<C, D>>)
    requires !options.once && forall op :: op in ops ==> Repeatable(op)
    ensures var r := Run(New<C, D>(options), ops);
      && r.list.Some? && r.stack.Some?
      && Unmixed(r.log)
      && Begun(r.log) + r.stack.value == r.asked
      && (!r.firing ==> Begun(r.log) == r.asked)
  {
    var l := New<C, D>(options);
    RunRefines(l, ops);
    FifoRun(View(l), ops);
  }

  // ----- nothing skipped, nothing run twice -----

  /** Calls of c recorded before the next walk begins. */
  function CallsInWalk<C(==), D>(events: seq<Event<C, D>>, c: C): nat {
    if events == [] || events[0].Started? then 0
    else (if events[0].cb == c then 1 else 0) + CallsInWalk(events[1..], c)
  }

  ghost predicate WalkOver<C, D>(events: seq<Event<C, D>>) {
    exists i :: 0 <= i < |events| && events[i].Started?
  }

  /** The running walk keeps going and c itself is not edited; stops: the list has the option stopOnFalse. */
  ghost predicate LeavesAlone<C, D>(op: Op<C, D>, c: C, stops: bool) {
    match op
    case OpAdd(cbs) => c !in cbs
    case OpRemove(cb) => cb != c
    case OpReturn(refused) => stops ==> !refused
    case OpFire(_) => true
    case OpLock => true
    case OpDisable => false
  }

  lemma AppendedSuffix<C>(list: seq<C>, cbs: seq<C>, unique: bool, c: C)
    requires c !in cbs
    ensures c !in Appended(list, cbs, unique)[|list|..]
    decreases |cbs|
  {
    if cbs != [] {
      if unique && cbs[0] in list {
        AppendedSuffix(list, cbs[1..], unique, c);
      } else {
        AppendedSuffix(list + [cbs[0]], cbs[1..], unique, c);
        var r := Appended(list + [cbs[0]], cbs[1..], unique);
        assert r[|list|] == cbs[0];
        assert r[|list|..] == [cbs[0]] + r[|list| + 1..];
      }
    }
  }

  lemma CountLaws<C>(a: seq<C>, b: seq<C>, c: C, x: C)
    ensures Count(a + b, c) == Count(a, c) + Count(b, c)
    ensures x != c ==> Count(Without(a, x), c) == Count(a, c)
    ensures c !in a ==> Count(a, c) == 0
  {
    if a == [] {
      assert a + b == b;
    } else {
      assert (a + b)[1..] == a[1..] + b;
      CountLaws(a[1..], b, c, x);
    }
  }

  lemma CallsInWalkConcat<C, D>(a: seq<Event<C, D>>, b: seq<Event<C, D>>, c: C)
    ensures CallsInWalk(a + b, c) ==
            if WalkOver(a) then CallsInWalk(a, c) else CallsInWalk(a, c) + CallsInWalk(b, c)
  {
    if a == [] {
      assert a + b == b;
    } else {
      assert (a + b)[1..] == a[1..] + b;
      CallsInWalkConcat(a[1..], b, c);
      if a[0].Started? {
      } else if WalkOver(a) {
        var i :| 0 <= i < |a| && a[i].Started?;
        assert a[1..][i - 1].Started?;
      }
    }
  }

  lemma StartGrows<C, D>(q: Queue<C, D>, data: D, todo: seq<C>, requested: bool) returns (events: seq<Event<C, D>>)
    ensures QStart(q, data, todo, requested).log == q.log + events
    ensures events != [] && events[0].Started?
    decreases Waiting(q), 2
  {
    var q1 := q.(memory := if q.options.memory then Some(data) else None, fired := true,
                 log := q.log + [Started(data, requested)]);
    if todo != [] {
      events := [Started(data, requested), Called(todo[0], data)];
    } else {
      var more := FinishGrows(q1);
      events := [Started(data, requested)] + more;
    }
  }

  lemma FinishGrows<C, D>(q: Queue<C, D>) returns (events: seq<Event<C, D>>)
    ensures QFinish(q).log == q.log + events
    ensures events == [] ==> QFinish(q).batch.None?
    ensures events != [] ==> events[0].Started?
    decreases Waiting(q), 0
  {
    if q.list.Some? && q.waiting.Some? && |q.waiting.value| > 0 {
      events := StartGrows(q.(batch := None, waiting := Some(q.waiting.value[1..])), q.waiting.value[0], q.list.value, true);
    } else {
      events := [];
    }
  }

  function TodoOf<C, D>(q: Queue<C, D>): seq<C> {
    if q.batch.Some? then q.batch.value.todo else []
  }

  /** One move from within a walk: what it records and what it leaves to do. */
  lemma WalkStep<C, D>(q: Queue<C, D>, op: Op<C, D>, c: C) returns (events: seq<Event<C, D>>)
    requires q.batch.Some? && LeavesAlone(op, c, q.options.stopOnFalse)
    requires op.OpLock? ==> q.memory.Some?
    ensures QDo(q, op).log == q.log + events
    ensures WalkOver(events) || QDo(q, op).batch.None? ==>
      CallsInWalk(events, c) == Count(TodoOf(q), c)
    ensures !WalkOver(events) && QDo(q, op).batch.Some? ==>
      CallsInWalk(events, c) + Count(TodoOf(QDo(q, op)), c) == Count(TodoOf(q), c)
    ensures !WalkOver(events) ==> QDo(q, op).memory == q.memory || QDo(q, op).batch.None?
    ensures !WalkOver(events) && QDo(q, op).batch.Some? ==> QDo(q, op).options == q.options
  {
    events := [];
    var todo := q.batch.value.todo;
    match op
    case OpAdd(cbs) =>
      if q.list.Some? {
        AppendedSuffix(q.list.value, cbs, q.options.unique, c);
        var new_ := Appended(q.list.value, cbs, q.options.unique)[|q.list.value|..];
        CountLaws(todo, new_, c, c);
        CountLaws(new_, [], c, c);
      }
    case OpRemove(cb) => CountLaws(todo, [], c, cb);
    case OpReturn(refused) =>
      if todo != [] {
        events := [Called(todo[0], q.batch.value.data)];
        assert CallsInWalk(events[1..], c) == 0;
      } else {
        events := FinishGrows(q);
      }
    case OpFire(_) =>
    case OpLock =>
  }

  lemma StepGrows<C, D>(q: Queue<C, D>, op: Op<C, D>) returns (events: seq<Event<C, D>>)
    ensures QDo(q, op).log == q.log + events
    ensures q.batch.None? && events != [] ==> events[0].Started?
  {
    events := [];
    match op
    case OpAdd(cbs) =>
      if q.list.Some? && q.batch.None? && q.memory.Some? {
        var list := Appended(q.list.value, cbs, q.options.unique);
        events := StartGrows(q.(list := Some(list)), q.memory.value, list[|q.list.value|..], false);
      }
    case OpFire(data) =>
      if q.list.Some? && (!q.fired || q.waiting.Some?) && q.batch.None? {
        events := StartGrows(q.(asked := q.asked + [data]), data, q.list.value, true);
      }
    case OpReturn(refused) =>
      if q.batch.Some? {
        if refused && q.options.stopOnFalse {
          events := FinishGrows(q.(memory := None));
        } else if q.batch.value.todo != [] {
          events := [Called(q.batch.value.todo[0], q.batch.value.data)];
        } else {
          events := FinishGrows(q);
        }
      }
    case _ =>
  }

  lemma {:induction false} RunGrows<C, D>(q: Queue<C, D>, ops: seq<Op<C, D>>) returns (events: seq<Event<C, D>>)
    ensures QRun(q, ops).log == q.log + events
    ensures q.batch.None? && events != [] ==> events[0].Started?
    decreases |ops|
  {
    events := [];
    if ops != [] {
      var first := StepGrows(q, ops[0]);
      var rest := RunGrows(QDo(q, ops[0]), ops[1..]);
      events := first + rest;
      if first == [] && q.batch.None? && QDo(q, ops[0]).batch.Some? { IdleStaysIdle(q, ops[0]); }
    }
  }

  lemma IdleStaysIdle<C, D>(q: Queue<C, D>, op: Op<C, D>)
    requires q.batch.None? && QDo(q, op).log == q.log
    ensures QDo(q, op).batch.None?
  {
    match op
    case OpAdd(cbs) =>
      if q.list.Some? && q.memory.Some? {
        var list := Appended(q.list.value, cbs, q.options.unique);
        var events := StartGrows(q.(list := Some(list)), q.memory.value, list[|q.list.value|..], false);
      }
    case OpFire(data) =>
      if q.list.Some? && (!q.fired || q.waiting.Some?) {
        var events := StartGrows(q.(asked := q.asked + [data]), data, q.list.value, true);
      }
    case _ =>
  }

  lemma {:induction false} WalkRun<C, D>(q: Queue<C, D>, ops: seq<Op<C, D>>, c: C)
    returns (events: seq<Event<C, D>>)
    requires q.batch.Some?
    requires forall op :: op in ops ==> LeavesAlone(op, c, q.options.stopOnFalse) && (op.OpLock? ==> q.memory.Some?)
    ensures QRun(q, ops).log == q.log + events
    ensures WalkOver(events) || QRun(q, ops).batch.None? ==>
      CallsInWalk(events, c) == Count(q.batch.value.todo, c)
    decreases |ops|
  {
    if ops == [] {
      events := [];
    } else {
      var first := WalkStep(q, ops[0], c);
      var q1 := QDo(q, ops[0]);
      if WalkOver(first) || q1.batch.None? {
        var rest := RunGrows(q1, ops[1..]);
        events := first + rest;
        CallsInWalkConcat(first, rest, c);
      } else {
        var rest := WalkRun(q1, ops[1..], c);
        events := first + rest;
        CallsInWalkConcat(first, rest, c);
        if WalkOver(events) {
          var i :| 0 <= i < |events| && events[i].Started?;
          assert rest[i - |first|].Started?;
        }
      }
    }
  }

  /**
   From any point inside a walk, with other callbacks added and removed, further
   fires requested and the list possibly locked on the way: when the walk is
   over, c has been called exactly as often as it was still due, whatever the
   cursor had to do to follow the edits.
   */
  lemma DueCallbacksRunOnce<C, D>(l: CList<C, D>, ops: seq<Op<C, D>>, c: C)
    requires Wf(l) && l.firing
    requires forall op :: op in ops ==> LeavesAlone(op, c, l.options.stopOnFalse) && (op.OpLock? ==> l.memory.Some?)
    ensures var r := Run(l, ops);
      && l.log <= r.log
      && (WalkOver(r.log[|l.log|..]) || !r.firing ==>
           CallsInWalk(r.log[|l.log|..], c) == Count(Todo(l), c))
  {
    RunRefines(l, ops);
    var events := WalkRun(View(l), ops, c);
    assert Run(l, ops).log[|l.log|..] == events;
  }
}
