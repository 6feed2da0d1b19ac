/**
 The cursor arithmetic of CallbackList is a worklist in disguise. A Queue keeps
 the callbacks still to be called as a plain sequence; every operation of the
 cursor form is shown to do to it what one expects, for every list state.
 */
module CallbackQueue {
  import opened Prelude
  import opened CallbackList

  datatype Batch<C, D> = Batch(data: D, todo: seq<C>)

  datatype Queue<C(==), D> = Queue(
    options: Options,
    list: Option<seq<C>>,
    memory: Option<D>,
    fired: bool,
    batch: Option<Batch<C, D>>,
    waiting: Option<seq<D>>,
    log: seq<Event<C, D>>,
    asked: seq<D>)

  ghost function View<C, D>(l: CList<C, D>): Queue<C, D>
    requires Wf(l)
  {
    Queue(l.options, l.list, l.memory, l.fired,
          if l.firing then Some(Batch(l.current.value, Todo(l))) else None,
          l.stack, l.log, l.asked)
  }

  function Waiting<C, D>(q: Queue<C, D>): nat {
    if q.waiting.Some? then |q.waiting.value| else 0
  }

  function QDisable<C, D>(q: Queue<C, D>): Queue<C, D> {
    q.(list := None, waiting := None, memory := None,
       batch := if q.batch.Some? then Some(q.batch.value.(todo := [])) else None)
  }

  /** Starts a batch that is to call the given callbacks. */
  function QStart<C, D>(q: Queue<C, D>, data: D, todo: seq<C>, requested: bool): Queue<C, D>
    decreases Waiting(q), 2
  {
    QNext(q.(memory := if q.options.memory then Some(data) else None,
             fired := true,
             log := q.log + [Started(data, requested)]), data, todo)
  }

  function QNext<C, D>(q: Queue<C, D>, data: D, todo: seq<C>): Queue<C, D>
    decreases Waiting(q), 1
  {
    if todo != [] then q.(batch := Some(Batch(data, todo[1..])), log := q.log + [Called(todo[0], data)])
    else QFinish(q)
  }

  function QFinish<C, D>(q: Queue<C, D>): Queue<C, D>
    decreases Waiting(q), 0
  {
    var q1 := q.(batch := None);
    if q.list.None? then q1
    else if q.waiting.Some? then
      if |q.waiting.value| > 0
      then QStart(q1.(waiting := Some(q.waiting.value[1..])), q.waiting.value[0], q.list.value, true)
      else q1
    else if q.memory.Some? then q1.(list := Some([]))
    else QDisable(q1)
  }

  function QDo<C, D>(q: Queue<C, D>, op: Op<C, D>): Queue<C, D> {
    match op
    case OpAdd(cbs) =>
      if q.list.None? then q
      else
        var list := Appended(q.list.value, cbs, q.options.unique);
        var new_ := list[|q.list.value|..];
        var q1 := q.(list := Some(list));
        if q.batch.Some? then q1.(batch := Some(q.batch.value.(todo := q.batch.value.todo + new_)))
        else if q.memory.Some? then QStart(q1, q.memory.value, new_, false)
        else q1
    case OpRemove(cb) =>
      if q.list.None? then q
      else q.(list := Some(Without(q.list.value, cb)),
              batch := if q.batch.None? then None
                       else Some(q.batch.value.(todo := Without(q.batch.value.todo, cb))))
    case OpFire(data) =>
      if q.list.None? || (q.fired && q.waiting.None?) then q
      else if q.batch.Some? then
        if q.waiting.Some?
        then q.(waiting := Some(q.waiting.value + [data]), asked := q.asked + [data])
        else q
      else QStart(q.(asked := q.asked + [data]), data, q.list.value, true)
    case OpReturn(refused) =>
      if q.batch.None? then q
      else if refused && q.options.stopOnFalse then QFinish(q.(memory := None))
      else QNext(q, q.batch.value.data, q.batch.value.todo)
    case OpLock =>
      if q.memory.None? then QDisable(q) else q.(waiting := None)
    case OpDisable => QDisable(q)
  }

  function QRun<C, D>(q: Queue<C, D>, ops: seq<Op<C, D>>): Queue<C, D>
    decreases |ops|
  {
    if ops == [] then q else QRun(QDo(q, ops[0]), ops[1..])
  }

  lemma BeginHeadView<C, D>(l: CList<C, D>, q: Queue<C, D>, data: D, requested: bool)
    requires l.list.Some? && l.firingStart <= |l.list.value|
    requires l.options.once ==> l.stack.None?
    requires q.options == l.options && q.list == l.list && q.waiting == l.stack
    requires q.log == l.log && q.asked == l.asked
    ensures Wf(Head(Begin(l, data, requested)))
    ensures View(Head(Begin(l, data, requested))) == QStart(q, data, l.list.value[l.firingStart..], requested)
    decreases StackSize(l), 1
  {
    BeginHeadWf(l, data, requested);
    var b := Begin(l, data, requested);
    if b.firingIndex >= b.firingLength {
      FinishView(b, q.(memory := b.memory, fired := true, log := b.log));
    }
    hide Finish, QFinish;
  }

  lemma FinishView<C, D>(l: CList<C, D>, q: Queue<C, D>)
    requires l.firingStart == 0
    requires l.list.None? ==> l.stack.None? && l.memory.None?
    requires l.memory.Some? ==> l.fired && l.options.memory
    requires l.options.once ==> l.stack.None?
    requires q.options == l.options && q.list == l.list && q.memory == l.memory && q.fired == l.fired
    requires q.waiting == l.stack && q.log == l.log && q.asked == l.asked
    ensures Wf(Finish(l))
    ensures View(Finish(l)) == QFinish(q)
    decreases StackSize(l), 0
  {
    FinishWf(l);
    if l.list.Some? && l.stack.Some? && |l.stack.value| > 0 {
      BeginHeadView(l.(firing := false, current := None, stack := Some(l.stack.value[1..])),
                    q.(batch := None, waiting := Some(q.waiting.value[1..])), l.stack.value[0], true);
      assert l.list.value[0..] == l.list.value;
    }
  }

  lemma AddRefines<C, D>(l: CList<C, D>, cbs: seq<C>)
    requires Wf(l)
    ensures Wf(Add(l, cbs)) && View(Add(l, cbs)) == QDo(View(l), OpAdd(cbs))
  {
    DoWf(l, OpAdd(cbs));
    if l.list.Some? {
      var list := Appended(l.list.value, cbs, l.options.unique);
      if l.firing {
        assert list[l.firingIndex + 1..] == Todo(l) + list[|l.list.value|..];
      } else if l.memory.Some? {
        BeginHeadView(l.(list := Some(list), firingStart := |l.list.value|), View(l).(list := Some(list)),
                      l.memory.value, false);
      }
    }
  }

  lemma FireRefines<C, D>(l: CList<C, D>, data: D)
    requires Wf(l)
    ensures Wf(FireWith(l, data)) && View(FireWith(l, data)) == QDo(View(l), OpFire(data))
  {
    DoWf(l, OpFire(data));
    if l.list.Some? && (!l.fired || l.stack.Some?) && !l.firing {
      BeginHeadView(l.(asked := l.asked + [data]), View(l).(asked := l.asked + [data]), data, true);
      assert l.list.value[0..] == l.list.value;
    }
  }

  lemma ReturnRefines<C, D>(l: CList<C, D>, refused: bool)
    requires Wf(l) && l.firing
    ensures Wf(Return(l, refused)) && View(Return(l, refused)) == QDo(View(l), OpReturn(refused))
  {
    DoWf(l, OpReturn(refused));
    if refused && l.options.stopOnFalse {
      FinishView(l.(memory := None), View(l).(memory := None));
    } else if l.list.None? || l.firingIndex + 1 >= l.firingLength {
      FinishView(l.(firingIndex := l.firingIndex + 1), View(l));
    }
  }

  /** One operation of the cursor form is one operation of the queue form. */
  lemma StepRefines<C, D>(l: CList<C, D>, op: Op<C, D>)
    requires Wf(l)
    ensures Wf(Do(l, op)) && View(Do(l, op)) == QDo(View(l), op)
  {
    match op
    case OpAdd(cbs) => AddRefines(l, cbs);
    case OpRemove(cb) =>
      DoWf(l, op);
      if l.list.Some? && l.firing { RemoveKeepsCursor(l, cb); }
    case OpFire(data) => FireRefines(l, data);
    case OpReturn(refused) => if l.firing { ReturnRefines(l, refused); }
    case OpLock => DoWf(l, op);
    case OpDisable => DoWf(l, op);
  }

  /** The refinement over whole runs: any operations, in any order, firing or not. */
  lemma {:induction false} RunRefines<C, D>(l: CList<C, D>, ops: seq<Op<C, D>>)
    requires Wf(l)
    ensures View(Run(l, ops)) == QRun(View(l), ops)
    decreases |ops|
  {
    if ops != [] {
      StepRefines(l, ops[0]);
      RunRefines(Do(l, ops[0]), ops[1..]);
    }
  }
}
