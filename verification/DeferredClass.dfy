/** jQuery.Deferred as an object over three Callbacks objects, updated in place. */
module DeferredClass {
  import opened Prelude
  import opened CallbackList
  import opened CallbackClass
  import opened Observers
  import opened Deferred

  /** What client code registered on one list and the client calls that list made. */
  datatype Record = Record(added: seq<Observer>, calls: seq<Call>)

  class DeferredObject {
    var state: State
    const done: Callbacks<Cb, Val>
    const fail: Callbacks<Cb, Val>
    const progress: Callbacks<Cb, Val>
    ghost var records: map<Kind, Record>

    ghost predicate Valid()
      reads this, done, fail, progress
    {
      && done != fail && fail != progress && done != progress
      && done.options == ONCE_MEMORY && fail.options == ONCE_MEMORY && progress.options == MEMORY
      && Done in records && Fail in records && Progress in records
      && Wf(done.View()) && Wf(fail.View()) && Wf(progress.View())
    }

    ghost function View(): (d: Dfd)
      requires Valid()
      reads this, done, fail, progress
      ensures ListsWf(d)
    {
      Dfd(state,
          Side(done.View(), records[Done].added, records[Done].calls),
          Side(fail.View(), records[Fail].added, records[Fail].calls),
          Side(progress.View(), records[Progress].added, records[Progress].calls))
    }

    function List(k: Kind): Callbacks<Cb, Val> {
      match k case Done => done case Fail => fail case Progress => progress
    }

    constructor ()
      ensures Valid() && View() == NewDfd()
      ensures fresh(done) && fresh(fail) && fresh(progress)
    {
      state := Pending;
      var d := new Callbacks<Cb, Val>(ONCE_MEMORY);
      var f := new Callbacks<Cb, Val>(ONCE_MEMORY);
      var p := new Callbacks<Cb, Val>(MEMORY);
      done, fail, progress := d, f, p;
      records := map[Done := Record([], []), Fail := Record([], []), Progress := Record([], [])];
      new;
      done.AddAll(Internals(Done));
      fail.AddAll(Internals(Fail));
    }

    method RunInternal(cb: Cb)
      requires Valid()
      modifies this`state, done, fail, progress
      ensures Valid() && View() == Internal(old(View()), cb)
    {
      match cb
      case SetState(st) => state := st;
      case DisableList(k) => List(k).DisableList();
      case LockProgress => progress.LockList();
      case Client(_) =>
    }

    ghost method RecordCall(k: Kind, c: Call)
      requires Valid()
      modifies this`records
      ensures Valid()
      ensures View() == Set(old(View()), k, Get(old(View()), k).(calls := Get(old(View()), k).calls + [c]))
    {
      records := records[k := records[k].(calls := records[k].calls + [c])];
    }

    ghost method RecordRegistration(k: Kind, o: Observer)
      requires Valid()
      modifies this`records
      ensures Valid()
      ensures View() == Set(old(View()), k, Get(old(View()), k).(added := Get(old(View()), k).added + [o]))
    {
      records := records[k := records[k].(added := records[k].added + [o])];
    }

    /** Runs the Deferred's own callback that list k is at, and resumes the list. */
    method StepInternal(k: Kind, cb: Cb)
      requires Valid() && AtCall(List(k).View())
      requires cb == List(k).list.value[List(k).firingIndex]
      modifies this`state, done, fail, progress
      ensures Valid() && View() == AfterInternal(old(View()), k)
    {
      InternalKeepsCursor(View(), cb, k);
      RunInternal(cb);
      List(k).Returned(false);
    }

    /** Lets list k run its own callbacks until a client callback is up or the list is done. */
    method RunOn(k: Kind) returns (up: Option<Observer>)
      requires Valid() && AtCall(List(k).View())
      modifies this, done, fail, progress
      ensures Valid() && (View(), up) == Drive(old(View()), k)
    {
      var cb := List(k).list.value[List(k).firingIndex];
      while !cb.Client?
        invariant Valid() && AtCall(List(k).View())
        invariant cb == List(k).list.value[List(k).firingIndex]
        invariant Drive(View(), k) == Drive(old(View()), k)
        decreases StackSize(List(k).View()), Left(List(k).View())
      {
        AfterInternalAdvances(View(), k);
        StepInternal(k, cb);
        if !List(k).firing { return None; }
        cb := List(k).list.value[List(k).firingIndex];
      }
      RecordCall(k, Call(cb.obs, List(k).current.value, state));
      up := Some(cb.obs);
    }

    /** resolve, reject or notify. */
    method FireKind(k: Kind, v: Val) returns (up: Option<Observer>)
      requires Valid()
      modifies this, done, fail, progress
      ensures Valid() && (View(), up) == FireD(old(View()), k, v)
    {
      ghost var l := List(k).View();
      var busy := List(k).firing;
      List(k).FireWithData(v);
      if List(k).firing && !busy {
        HeadAtCall(l.(asked := l.asked + [v]), v, true);
        up := RunOn(k);
      } else {
        up := None;
      }
    }

    /** done, fail or progress. */
    method Register(k: Kind, o: Observer) returns (up: Option<Observer>)
      requires Valid()
      modifies this, done, fail, progress
      ensures Valid() && (View(), up) == AddD(old(View()), k, o)
    {
      ghost var l := List(k).View();
      var busy := List(k).firing;
      List(k).AddAll([Client(o)]);
      RecordRegistration(k, o);
      if List(k).firing && !busy {
        HeadAtCall(l.(list := Some(Appended(l.list.value, [Client(o)], l.options.unique)),
                      firingStart := |l.list.value|), l.memory.value, false);
        up := RunOn(k);
      } else {
        up := None;
      }
    }

    /** The client callback list k was in returned. */
    method CallbackReturned(k: Kind) returns (up: Option<Observer>)
      requires Valid()
      modifies this, done, fail, progress
      ensures Valid() && (View(), up) == FinishedD(old(View()), k)
    {
      up := None;
      if List(k).firing {
        ReturnAdvances(List(k).View());
        List(k).Returned(false);
        if List(k).firing { up := RunOn(k); }
      }
    }
  }
}
