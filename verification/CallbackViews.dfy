/**
 What one callback of a list with memory sees: the value of the walk begun last
 before it was added, if any, and then the values of all later requests, in order.
 */
module CallbackViews {
  import opened Prelude
  import opened CallbackList
  import opened CallbackQueue
  import opened CallbackRuns

  /** The arguments c has been called with. */
  function SeenBy<C(==), D>(log: seq<Event<C, D>>, c: C): seq<D> {
    if log == [] then []
    else
      var last := log[|log| - 1];
      SeenBy(log[..|log| - 1], c) + if last.Called? && last.cb == c then [last.arg] else []
  }

  /** What c is still to be called with in the running walk. */
  function Coming<C(==), D>(q: Queue<C, D>, c: C): seq<D> {
    if q.batch.Some? && c in q.batch.value.todo then [q.batch.value.data] else []
  }

  lemma {:induction false} SeenStep<C, D>(log: seq<Event<C, D>>, e: Event<C, D>, c: C)
    ensures SeenBy(log + [e], c) == SeenBy(log, c) + if e.Called? && e.cb == c then [e.arg] else []
  {
    assert (log + [e])[..|log|] == log;
  }

  /** The list remembers the value of the request begun last. */
  ghost predicate Remembers<C, D>(q: Queue<C, D>) {
    && Fifo(q) && q.options.memory && !q.options.unique
    && (Begun(q.log) == [] ==> q.memory.None? && q.batch.None?)
    && (Begun(q.log) != [] ==> q.memory == Some(Last(Begun(q.log))))
    && (q.batch.Some? ==> q.memory == Some(q.batch.value.data))
  }

  function Last<T>(s: seq<T>): T
    requires s != []
  {
    s[|s| - 1]
  }

  /** c is in the list once and has seen, or is about to see, the requests from number start on. */
  ghost predicate Sees<C, D>(q: Queue<C, D>, c: C, start: nat) {
    && Remembers(q) && Count(q.list.value, c) == 1 && start <= |Begun(q.log)|
    && (q.batch.Some? ==> Count(q.batch.value.todo, c) <= 1)
    && SeenBy(q.log, c) + Coming(q, c) == Begun(q.log)[start..]
  }

  /** c is not in the list and has seen nothing. */
  ghost predicate Absent<C, D>(q: Queue<C, D>, c: C) {
    && Remembers(q) && c !in q.list.value && (q.batch.Some? ==> c !in q.batch.value.todo)
    && SeenBy(q.log, c) == []
  }

  // ----- one walk begins or goes on -----

  lemma CountIn<C>(s: seq<C>, c: C)
    ensures c in s <==> Count(s, c) > 0
  {
  }

  /** The next call of a walk over todo, whose data is that of the last request. */
  lemma {:induction false} NextSees<C, D>(q: Queue<C, D>, data: D, todo: seq<C>, c: C, start: nat)
    requires q.list.Some? && q.waiting.Some? && !q.options.once && q.options.memory && !q.options.unique
    requires Begun(q.log) + q.waiting.value == q.asked && Unmixed(q.log) && Owner(q.log) == Some(data)
    requires Begun(q.log) != [] && q.memory == Some(data) == Some(Last(Begun(q.log)))
    requires Count(q.list.value, c) == 1 && Count(todo, c) <= 1 && start <= |Begun(q.log)|
    requires SeenBy(q.log, c) + (if c in todo then [data] else []) == Begun(q.log)[start..]
    ensures Sees(QNext(q, data, todo), c, start)
    decreases Waiting(q), 1
  {
    FifoNext(q, data, todo);
    CountIn(todo, c);
    if todo != [] {
      CountIn(todo[1..], c);
      LogStep(q.log, Called(todo[0], data));
      SeenStep(q.log, Called(todo[0], data), c);
      assert todo == [todo[0]] + todo[1..];
    } else {
      FinishSees(q, c, start);
    }
  }

  lemma {:induction false} FinishSees<C, D>(q: Queue<C, D>, c: C, start: nat)
    requires q.list.Some? && q.waiting.Some? && !q.options.once && q.options.memory && !q.options.unique
    requires Begun(q.log) + q.waiting.value == q.asked && Unmixed(q.log)
    requires Begun(q.log) != [] && q.memory == Some(Last(Begun(q.log)))
    requires Count(q.list.value, c) == 1 && start <= |Begun(q.log)| && SeenBy(q.log, c) == Begun(q.log)[start..]
    ensures Sees(QFinish(q), c, start)
    decreases Waiting(q), 0
  {
    FifoFinish(q);
    if |q.waiting.value| > 0 {
      StartSees(q.(batch := None, waiting := Some(q.waiting.value[1..])), q.waiting.value[0], c, start);
    }
  }

  /** A requested walk over the whole list. */
  lemma {:induction false} StartSees<C, D>(q: Queue<C, D>, data: D, c: C, start: nat)
    requires q.list.Some? && q.waiting.Some? && !q.options.once && q.options.memory && !q.options.unique
    requires Begun(q.log) + [data] + q.waiting.value == q.asked && Unmixed(q.log)
    requires Count(q.list.value, c) == 1 && start <= |Begun(q.log)| && SeenBy(q.log, c) == Begun(q.log)[start..]
    ensures Sees(QStart(q, data, q.list.value, true), c, start)
    decreases Waiting(q), 2
  {
    LogStep(q.log, Started(data, true));
    SeenStep(q.log, Started(data, true), c);
    CountIn(q.list.value, c);
    var q1 := q.(memory := Some(data), fired := true, log := q.log + [Started(data, true)]);
    assert Begun(q1.log)[start..] == Begun(q.log)[start..] + [data];
    NextSees(q1, data, q.list.value, c, start);
  }

  // ----- one operation -----

  lemma {:induction false} NewOnes<C>(list: seq<C>, cbs: seq<C>)
    ensures Appended(list, cbs, false) == list + cbs && Appended(list, cbs, false)[|list|..] == cbs
    decreases |cbs|
  {
    if cbs == [] {
      assert list + cbs == list;
    } else {
      NewOnes(list + [cbs[0]], cbs[1..]);
      assert list + [cbs[0]] + cbs[1..] == list + cbs;
    }
  }

  /** A walk over what was just added, with the value remembered. */
  lemma {:induction false} ReplaySees<C, D>(q: Queue<C, D>, data: D, todo: seq<C>, c: C, start: nat)
    requires q.list.Some? && q.waiting.Some? && !q.options.once && q.options.memory && !q.options.unique
    requires Begun(q.log) + q.waiting.value == q.asked && Unmixed(q.log)
    requires Begun(q.log) != [] && Last(Begun(q.log)) == data
    requires Count(q.list.value, c) == 1 && Count(todo, c) <= 1 && start <= |Begun(q.log)|
    requires SeenBy(q.log, c) + (if c in todo then [data] else []) == Begun(q.log)[start..]
    ensures Sees(QStart(q, data, todo, false), c, start)
  {
    LogStep(q.log, Started(data, false));
    SeenStep(q.log, Started(data, false), c);
    NextSees(q.(memory := Some(data), fired := true, log := q.log + [Started(data, false)]), data, todo, c, start);
  }

  lemma {:induction false} SeesStep<C, D>(q: Queue<C, D>, op: Op<C, D>, c: C, start: nat)
    requires Sees(q, c, start) && Repeatable(op) && LeavesAlone(op, c, q.options.stopOnFalse)
    ensures Sees(QDo(q, op), c, start) && QDo(q, op).options == q.options
  {
    QKeepsOptions(q, op);
    match op
    case OpAdd(cbs) => OthersAdded(q, cbs, c, start);
    case OpRemove(cb) => OtherRemoved(q, cb, c, start);
    case OpFire(data) => Requested(q, data, c, start);
    case OpReturn(_) =>
      if q.batch.Some? { NextSees(q, q.batch.value.data, q.batch.value.todo, c, start); }
  }

  lemma {:induction false} Requested<C, D>(q: Queue<C, D>, data: D, c: C, start: nat)
    requires Sees(q, c, start)
    ensures Sees(QDo(q, OpFire(data)), c, start)
  {
    FifoStep(q, OpFire(data));
    if q.batch.None? { StartSees(q.(asked := q.asked + [data]), data, c, start); }
  }

  lemma {:induction false} OthersAdded<C, D>(q: Queue<C, D>, cbs: seq<C>, c: C, start: nat)
    requires Sees(q, c, start) && c !in cbs
    ensures Sees(QDo(q, OpAdd(cbs)), c, start)
  {
    FifoStep(q, OpAdd(cbs));
    NewOnes(q.list.value, cbs);
    CountLaws(cbs, [], c, c);
    CountLaws(q.list.value, cbs, c, c);
    hide Begun, SeenBy, Owner, Unmixed, QStart, Appended;
    if q.batch.Some? {
      CountLaws(q.batch.value.todo, cbs, c, c);
      CountIn(q.batch.value.todo, c);
      CountIn(q.batch.value.todo + cbs, c);
    } else if q.memory.Some? { ReplaySees(q.(list := Some(q.list.value + cbs)), q.memory.value, cbs, c, start); }
  }

  lemma {:induction false} OtherRemoved<C, D>(q: Queue<C, D>, cb: C, c: C, start: nat)
    requires Sees(q, c, start) && cb != c
    ensures Sees(QDo(q, OpRemove(cb)), c, start)
  {
    FifoStep(q, OpRemove(cb));
    CountLaws(q.list.value, [], c, cb);
    if q.batch.Some? {
      var todo := q.batch.value.todo;
      CountLaws(todo, [], c, cb);
      CountIn(todo, c);
      CountIn(Without(todo, cb), c);
    }
  }

  lemma {:induction false} QKeepsOptions<C, D>(q: Queue<C, D>, op: Op<C, D>)
    ensures QDo(q, op).options == q.options
  {
    match op
    case OpAdd(cbs) =>
      if q.list.Some? && q.batch.None? && q.memory.Some? {
        var list := Appended(q.list.value, cbs, q.options.unique);
        StartKeepsOptions(q.(list := Some(list)), q.memory.value, list[|q.list.value|..], false);
      }
    case OpFire(data) =>
      if q.list.Some? && q.batch.None? && !(q.fired && q.waiting.None?) { StartKeepsOptions(q.(asked := q.asked + [data]), data, q.list.value, true); }
    case OpReturn(refused) =>
      if q.batch.Some? {
        if refused && q.options.stopOnFalse { FinishKeepsOptions(q.(memory := None)); }
        else if q.batch.value.todo == [] { FinishKeepsOptions(q); }
      }
    case _ =>
  }

  lemma {:induction false} StartKeepsOptions<C, D>(q: Queue<C, D>, data: D, todo: seq<C>, requested: bool)
    ensures QStart(q, data, todo, requested).options == q.options
    decreases Waiting(q), 1
  {
    if todo == [] {
      FinishKeepsOptions(q.(memory := if q.options.memory then Some(data) else None, fired := true, log := q.log + [Started(data, requested)]));
    }
  }

  lemma {:induction false} FinishKeepsOptions<C, D>(q: Queue<C, D>)
    ensures QFinish(q).options == q.options
    decreases Waiting(q), 0
  {
    if q.list.Some? && q.waiting.Some? && |q.waiting.value| > 0 {
      StartKeepsOptions(q.(batch := None, waiting := Some(q.waiting.value[1..])), q.waiting.value[0], q.list.value, true);
    }
  }

  /** A request is accepted, and nothing else is. */
  lemma {:induction false} AskedStep<C, D>(q: Queue<C, D>, op: Op<C, D>)
    requires Fifo(q) && Repeatable(op)
    ensures QDo(q, op).asked == q.asked + if op.OpFire? then [op.data] else []
  {
    match op
    case OpAdd(cbs) =>
      if q.batch.None? && q.memory.Some? {
        var list := Appended(q.list.value, cbs, q.options.unique);
        StartAsks(q.(list := Some(list)), q.memory.value, list[|q.list.value|..], false);
      }
    case OpRemove(_) =>
    case OpFire(data) => if q.batch.None? { StartAsks(q.(asked := q.asked + [data]), data, q.list.value, true); }
    case OpReturn(refused) =>
      if q.batch.Some? {
        if refused && q.options.stopOnFalse { FinishAsks(q.(memory := None)); }
        else if q.batch.value.todo == [] { FinishAsks(q); }
      }
  }

  lemma {:induction false} StartAsks<C, D>(q: Queue<C, D>, data: D, todo: seq<C>, requested: bool)
    ensures QStart(q, data, todo, requested).asked == q.asked
    decreases Waiting(q), 1
  {
    if todo == [] {
      FinishAsks(q.(memory := if q.options.memory then Some(data) else None, fired := true, log := q.log + [Started(data, requested)]));
    }
  }

  lemma {:induction false} FinishAsks<C, D>(q: Queue<C, D>)
    ensures QFinish(q).asked == q.asked
    decreases Waiting(q), 0
  {
    if q.list.Some? && q.waiting.Some? && |q.waiting.value| > 0 {
      StartAsks(q.(batch := None, waiting := Some(q.waiting.value[1..])), q.waiting.value[0], q.list.value, true);
    }
  }

  // ----- before c is added -----

  lemma {:induction false} NextAbsent<C, D>(q: Queue<C, D>, data: D, todo: seq<C>, c: C)
    requires q.list.Some? && q.waiting.Some? && !q.options.once && q.options.memory && !q.options.unique
    requires Begun(q.log) + q.waiting.value == q.asked && Unmixed(q.log) && Owner(q.log) == Some(data)
    requires Begun(q.log) != [] && q.memory == Some(data) == Some(Last(Begun(q.log)))
    requires c !in q.list.value && c !in todo && SeenBy(q.log, c) == []
    ensures Absent(QNext(q, data, todo), c)
    decreases Waiting(q), 1
  {
    FifoNext(q, data, todo);
    if todo != [] {
      LogStep(q.log, Called(todo[0], data));
      SeenStep(q.log, Called(todo[0], data), c);
    } else {
      FinishAbsent(q, c);
    }
  }

  lemma {:induction false} FinishAbsent<C, D>(q: Queue<C, D>, c: C)
    requires q.list.Some? && q.waiting.Some? && !q.options.once && q.options.memory && !q.options.unique
    requires Begun(q.log) + q.waiting.value == q.asked && Unmixed(q.log)
    requires Begun(q.log) != [] && q.memory == Some(Last(Begun(q.log)))
    requires c !in q.list.value && SeenBy(q.log, c) == []
    ensures Absent(QFinish(q), c)
    decreases Waiting(q), 0
  {
    FifoFinish(q);
    if |q.waiting.value| > 0 {
      StartAbsent(q.(batch := None, waiting := Some(q.waiting.value[1..])), q.waiting.value[0], q.list.value, true, c);
    }
  }

  lemma {:induction false} StartAbsent<C, D>(q: Queue<C, D>, data: D, todo: seq<C>, requested: bool, c: C)
    requires q.list.Some? && q.waiting.Some? && !q.options.once && q.options.memory && !q.options.unique
    requires Begun(q.log) + (if requested then [data] else []) + q.waiting.value == q.asked && Unmixed(q.log)
    requires !requested ==> Begun(q.log) != [] && Last(Begun(q.log)) == data
    requires c !in q.list.value && c !in todo && SeenBy(q.log, c) == []
    ensures Absent(QStart(q, data, todo, requested), c)
    decreases Waiting(q), 2
  {
    LogStep(q.log, Started(data, requested));
    SeenStep(q.log, Started(data, requested), c);
    var q1 := q.(memory := Some(data), fired := true, log := q.log + [Started(data, requested)]);
    assert SeenBy(q.log, c) + [] == SeenBy(q.log, c);
    if requested {
      assert Begun(q1.log) == Begun(q.log) + [data];
    } else {
      assert Begun(q1.log) == Begun(q.log) && Begun(q.log) + [] == Begun(q.log);
    }
    assert QStart(q, data, todo, requested) == QNext(q1, data, todo);
    hide QStart, QNext, Begun, SeenBy, Owner, Unmixed;
    NextAbsent(q1, data, todo, c);
  }

  lemma {:induction false} AbsentStep<C, D>(q: Queue<C, D>, op: Op<C, D>, c: C)
    requires Absent(q, c) && Repeatable(op) && LeavesAlone(op, c, q.options.stopOnFalse)
    ensures Absent(QDo(q, op), c) && QDo(q, op).options == q.options
  {
    FifoStep(q, op);
    QKeepsOptions(q, op);
    match op
    case OpAdd(cbs) =>
      NewOnes(q.list.value, cbs);
      if q.batch.None? && q.memory.Some? { StartAbsent(q.(list := Some(q.list.value + cbs)), q.memory.value, cbs, false, c); }
    case OpRemove(cb) =>
      WithoutOthers(q.list.value, cb, c);
      if q.batch.Some? { WithoutOthers(q.batch.value.todo, cb, c); }
    case OpFire(data) =>
      if q.batch.None? { StartAbsent(q.(asked := q.asked + [data]), data, q.list.value, true, c); }
    case OpReturn(_) =>
      if q.batch.Some? { NextAbsent(q, q.batch.value.data, q.batch.value.todo, c); }
  }

  lemma WithoutOthers<C>(s: seq<C>, x: C, c: C)
    requires c !in s
    ensures c !in Without(s, x)
  {
  }

  /** The number of the first request that a callback added now is going to see. */
  function FirstSeen(begun: nat): nat {
    if begun == 0 then 0 else begun - 1
  }

  lemma {:induction false} AddSees<C, D>(q: Queue<C, D>, c: C)
    requires Absent(q, c)
    ensures Sees(QDo(q, OpAdd([c])), c, FirstSeen(|Begun(q.log)|)) && QDo(q, OpAdd([c])).options == q.options
  {
    FifoStep(q, OpAdd([c]));
    QKeepsOptions(q, OpAdd([c]));
    NewOnes(q.list.value, [c]);
    CountIn(q.list.value, c);
    CountLaws(q.list.value, [c], c, c);
    assert Count([c], c) == 1;
    var start := FirstSeen(|Begun(q.log)|);
    assert Begun(q.log) != [] ==> Begun(q.log)[start..] == [Last(Begun(q.log))];
    hide Begun, SeenBy, Owner, Unmixed, QStart, Appended;
    if q.batch.Some? {
      CountIn(q.batch.value.todo, c);
      CountLaws(q.batch.value.todo, [c], c, c);
    } else if q.memory.Some? {
      ReplaySees(q.(list := Some(q.list.value + [c])), q.memory.value, [c], c, start);
    }
  }

  // ----- whole runs -----

  ghost predicate Alone<C, D>(ops: seq<Op<C, D>>, c: C, stops: bool) {
    forall op :: op in ops ==> Repeatable(op) && LeavesAlone(op, c, stops)
  }

  lemma {:induction false} AbsentRun<C, D>(q: Queue<C, D>, ops: seq<Op<C, D>>, c: C)
    requires Absent(q, c) && Alone(ops, c, q.options.stopOnFalse)
    ensures Absent(QRun(q, ops), c) && QRun(q, ops).options == q.options
    decreases |ops|
  {
    if ops != [] {
      AbsentStep(q, ops[0], c);
      AbsentRun(QDo(q, ops[0]), ops[1..], c);
    }
  }

  lemma {:induction false} SeesRun<C, D>(q: Queue<C, D>, ops: seq<Op<C, D>>, c: C, start: nat)
    requires Sees(q, c, start) && Alone(ops, c, q.options.stopOnFalse)
    ensures Sees(QRun(q, ops), c, start)
    decreases |ops|
  {
    if ops != [] {
      SeesStep(q, ops[0], c, start);
      SeesRun(QDo(q, ops[0]), ops[1..], c, start);
    }
  }

  /**
   A list with memory that may fire again, whatever is added, removed or requested
   around it: a callback that is added once and not removed is called with the value
   of the request begun last when it was added, if there was one, and with those of
   all later requests, in order and once each. None is missing once the list is idle.
   */
  lemma {:induction false} SeesFromItsTime<C, D>(options: Options, before: seq<Op<C, D>>, c: C, after: seq<Op<C, D>>)
    requires options.memory && !options.once && !options.unique
    requires Alone(before, c, options.stopOnFalse) && Alone(after, c, options.stopOnFalse)
    ensures Wf(Add(Run(New<C, D>(options), before), [c]))
    ensures var l := Run(New<C, D>(options), before);
      var r := Run(Add(l, [c]), after);
      var start := FirstSeen(|Begun(l.log)|);
      && start <= |r.asked|
      && SeenBy(r.log, c) <= r.asked[start..]
      && (!r.firing ==> SeenBy(r.log, c) == r.asked[start..])
  {
    var l0 := New<C, D>(options);
    NewAbsent<C, D>(options, c);
    hide Fifo, Absent, Sees, Alone, SeenBy, Begun, Run, QRun, QDo, Add, Do;
    RunRefines(l0, before);
    AbsentRun(View(l0), before, c);
    var l := Run(l0, before);
    AddRefines(l, [c]);
    AddSees(View(l), c);
    RunRefines(Add(l, [c]), after);
    SeesRun(View(Add(l, [c])), after, c, FirstSeen(|Begun(l.log)|));
    SeenOnList(Run(Add(l, [c]), after), c, FirstSeen(|Begun(l.log)|));
  }

  lemma {:induction false} NewAbsent<C, D>(options: Options, c: C)
    requires options.memory && !options.once && !options.unique
    ensures Absent(View(New<C, D>(options)), c) && View(New<C, D>(options)).options == options
  {
  }

  lemma {:induction false} SeenOnList<C, D>(r: CList<C, D>, c: C, start: nat)
    requires Wf(r) && Sees(View(r), c, start)
    ensures start <= |r.asked| && SeenBy(r.log, c) <= r.asked[start..]
    ensures !r.firing ==> SeenBy(r.log, c) == r.asked[start..]
  {
    BegunAsked(View(r), start, SeenBy(r.log, c));
  }

  lemma {:induction false} BegunAsked<C, D>(q: Queue<C, D>, start: nat, seen: seq<D>)
    requires Fifo(q) && start <= |Begun(q.log)| && seen <= Begun(q.log)[start..]
    ensures start <= |q.asked| && seen <= q.asked[start..]
    ensures q.batch.None? ==> q.asked == Begun(q.log)
  {
    assert q.asked[start..] == Begun(q.log)[start..] + q.waiting.value;
  }
}
