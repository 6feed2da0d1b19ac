/** jQuery.Callbacks as an object: fields updated in place, loops as in the source. */
module CallbackClass {
  import opened Prelude
  import opened CallbackList

  /** jQuery.inArray: the first position of x at or after from, or -1. */
  method InArray<C(==)>(x: C, s: seq<C>, from: nat) returns (index: int)
    ensures index == -1 ==> forall k :: from <= k < |s| ==> s[k] != x
    ensures index != -1 ==> from <= index < |s| && s[index] == x && x !in s[from..index]
  {
    index := from;
    while index < |s|
      invariant from <= index
      invariant index <= |s| || index == from
      invariant forall k :: from <= k < index && k < |s| ==> s[k] != x
    {
      if s[index] == x { return; }
      index := index + 1;
    }
    index := -1;
  }

  lemma SplitAt<C>(s: seq<C>, i: nat, x: C)
    requires i < |s| && s[i] == x && x !in s[..i]
    ensures Without(s, x) == s[..i] + Without(s[i + 1..], x)
    ensures Count(s, x) == 1 + Count(s[i + 1..], x)
  {
    assert s == s[..i] + s[i..];
    assert s[i..][1..] == s[i + 1..];
    WithoutConcat(s[..i], s[i..], x);
    WithoutAbsent(s[..i], x);
    WithoutLength(s, x);
    WithoutLength(s[i + 1..], x);
  }

  lemma JoinAt<C>(a: seq<C>, b: seq<C>, x: C)
    requires x !in a
    ensures Without(a + b, x) == a + Without(b, x)
    ensures Count(a + b, x) == Count(b, x)
  {
    WithoutConcat(a, b, x);
    WithoutAbsent(a, x);
    WithoutLength(a + b, x);
    WithoutLength(b, x);
  }

  /** Where a removal in progress stands: list and mark have moved together. */
  ghost predicate Tracks<C>(list: seq<C>, mark: int, list0: seq<C>, mark0: int, x: C) {
    && -1 <= mark < |list| && -1 <= mark0 < |list0|
    && Without(list, x) == Without(list0, x)
    && |list| - Count(list, x) == |list0| - Count(list0, x)
    && mark - Count(list[..mark + 1], x) == mark0 - Count(list0[..mark0 + 1], x)
  }

  lemma SplicePrefix<C>(list: seq<C>, mark: int, x: C, i: nat)
    requires -1 <= mark < |list| && i <= mark && list[i] == x && x !in list[..i]
    ensures var next := list[..i] + list[i + 1..];
      Count(next[..mark], x) == Count(list[..mark + 1], x) - 1
  {
    var front := list[..mark + 1];
    assert front[..i] == list[..i];
    assert (list[..i] + list[i + 1..])[..mark] == front[..i] + front[i + 1..];
    SplitAt(front, i, x);
    JoinAt(front[..i], front[i + 1..], x);
  }

  /** Splicing out the first occurrence of x keeps the mark in step. */
  lemma SpliceTracks<C>(list: seq<C>, mark: int, list0: seq<C>, mark0: int, x: C, i: nat)
    requires Tracks(list, mark, list0, mark0, x)
    requires i < |list| && list[i] == x && x !in list[..i]
    ensures Tracks(list[..i] + list[i + 1..], if i <= mark then mark - 1 else mark, list0, mark0, x)
  {
    var next := list[..i] + list[i + 1..];
    SplitAt(list, i, x);
    JoinAt(list[..i], list[i + 1..], x);
    if i <= mark {
      SplicePrefix(list, mark, x, i);
    } else {
      assert next[..mark + 1] == list[..mark + 1];
    }
  }

  lemma TracksDone<C>(list: seq<C>, mark: int, list0: seq<C>, mark0: int, x: C)
    requires Tracks(list, mark, list0, mark0, x) && x !in list
    ensures list == Without(list0, x)
    ensures |list| == |list0| - Count(list0, x)
    ensures mark == mark0 - Count(list0[..mark0 + 1], x)
  {
    WithoutAbsent(list, x);
    WithoutLength(list, x);
    WithoutAbsent(list[..mark + 1], x);
    WithoutLength(list[..mark + 1], x);
  }

  class Callbacks<C(==), D> {
    const options: Options
    var list: Option<seq<C>>
    var memory: Option<D>
    var fired: bool
    var firing: bool
    var firingStart: nat
    var firingLength: int
    var firingIndex: int
    var stack: Option<seq<D>>
    var current: Option<D>
    ghost var log: seq<Event<C, D>>
    ghost var asked: seq<D>

    ghost function View(): CList<C, D>
      reads this
    {
      CList(options, list, memory, fired, firing, firingStart, firingLength, firingIndex, stack, current, log, asked)
    }

    constructor (options: Options)
      ensures View() == New(options) && Wf(View())
      ensures this.options == options
    {
      this.options := options;
      list, memory, fired, firing := Some([]), None, false, false;
      firingStart, firingLength, firingIndex := 0, 0, 0;
      stack := if options.once then None else Some([]);
      current, log, asked := None, [], [];
    }

    method Fire(data: D, requested: bool)
      requires list.Some?
      modifies this
      ensures View() == Head(Begin(old(View()), data, requested))
      decreases StackSize(View()), 2
    {
      memory := if options.memory then Some(data) else None;
      fired := true;
      firingIndex := firingStart;
      firingStart := 0;
      firingLength := |list.value|;
      firing := true;
      current := Some(data);
      log := log + [Started(data, requested)];
      LoopHead();
    }

    method LoopHead()
      requires firing && current.Some? && 0 <= firingIndex
      requires list.Some? ==> firingLength == |list.value|
      modifies this
      ensures View() == Head(old(View()))
      decreases StackSize(View()), 1
    {
      if list.Some? && firingIndex < firingLength {
        log := log + [Called(list.value[firingIndex], current.value)];
      } else {
        Epilogue();
      }
    }

    method Epilogue()
      modifies this
      ensures View() == Finish(old(View()))
      decreases StackSize(View()), 0
    {
      firing, current := false, None;
      if list.Some? {
        if stack.Some? {
          if |stack.value| > 0 {
            var data := stack.value[0];
            stack := Some(stack.value[1..]);
            Fire(data, true);
          }
        } else if memory.Some? {
          list := Some([]);
        } else {
          DisableList();
        }
      }
    }

    /** The callback that was running returned; refused says that it returned false. */
    method Returned(refused: bool)
      requires Wf(View()) && firing
      modifies this
      ensures View() == Return(old(View()), refused) && Wf(View())
    {
      DoWf(View(), OpReturn(refused));
      if refused && options.stopOnFalse {
        memory := None;
        Epilogue();
      } else {
        firingIndex := firingIndex + 1;
        LoopHead();
      }
    }

    method AddAll(cbs: seq<C>)
      requires Wf(View())
      modifies this
      ensures View() == Add(old(View()), cbs) && Wf(View())
    {
      DoWf(View(), OpAdd(cbs));
      if list.Some? {
        var start := |list.value|;
        for i := 0 to |cbs|
          invariant list.Some?
          invariant View() == old(View()).(list := list)
          invariant Appended(list.value, cbs[i..], options.unique) == Appended(old(list).value, cbs, options.unique)
        {
          assert cbs[i..][1..] == cbs[i + 1..];
          if !options.unique || cbs[i] !in list.value {
            list := Some(list.value + [cbs[i]]);
          }
        }
        assert Appended(old(list).value, cbs, options.unique) == list.value;
        if firing {
          firingLength := |list.value|;
        } else if memory.Some? {
          firingStart := start;
          Fire(memory.value, false);
        }
      }
    }

    method RemoveAll(x: C)
      requires Wf(View())
      modifies this
      ensures View() == Remove(old(View()), x) && Wf(View())
    {
      DoWf(View(), OpRemove(x));
      if list.Some? {
        ghost var list0, mark0 := list.value, firingIndex;
        SpliceAll(x);
        TracksDone(list.value, -1, list0, -1, x);
        if firing { TracksDone(list.value, firingIndex, list0, mark0, x); }
      }
    }

    /** Splices out each occurrence found by InArray and moves the firing marks one by one. */
    method SpliceAll(x: C)
      requires list.Some?
      requires firing ==> firingLength == |list.value| && -1 <= firingIndex < |list.value|
      modifies this`list, this`firingLength, this`firingIndex
      ensures list.Some? && x !in list.value
      ensures Tracks(list.value, -1, old(list).value, -1, x)
      ensures firing ==> firingLength == |list.value| && Tracks(list.value, firingIndex, old(list).value, old(firingIndex), x)
      ensures !firing ==> firingLength == old(firingLength) && firingIndex == old(firingIndex)
    {
      ghost var list0, mark0 := list.value, firingIndex;
      var index := InArray(x, list.value, 0);
      while index != -1
        invariant list.Some?
        invariant -1 <= index < |list.value|
        invariant index != -1 ==> list.value[index] == x && x !in list.value[..index]
        invariant index == -1 ==> x !in list.value
        invariant !firing ==> firingLength == old(firingLength) && firingIndex == old(firingIndex)
        invariant firing ==> firingLength == |list.value| && Tracks(list.value, firingIndex, list0, mark0, x)
        invariant Tracks(list.value, -1, list0, -1, x)
        decreases |list.value|
      {
        if firing { SpliceTracks(list.value, firingIndex, list0, mark0, x, index); }
        SpliceTracks(list.value, -1, list0, -1, x, index);
        ghost var before := list.value[..index];
        Splice(index);
        assert list.value[..index] == before;
        index := InArray(x, list.value, index);
      }
    }

    method Splice(index: nat)
      requires list.Some? && index < |list.value|
      requires firing ==> firingLength == |list.value|
      modifies this`list, this`firingLength, this`firingIndex
      ensures list == Some(old(list).value[..index] + old(list).value[index + 1..])
      ensures firingLength == if firing then old(firingLength) - 1 else old(firingLength)
      ensures firingIndex == if firing && index <= old(firingIndex) then old(firingIndex) - 1 else old(firingIndex)
    {
      list := Some(list.value[..index] + list.value[index + 1..]);
      if firing {
        if index <= firingLength { firingLength := firingLength - 1; }
        if index <= firingIndex { firingIndex := firingIndex - 1; }
      }
    }

    method Has(x: C) returns (r: bool)
      ensures r <==> list.Some? && x in list.value
    {
      if list.None? { return false; }
      var index := InArray(x, list.value, 0);
      r := index > -1;
    }

    method DisableList()
      modifies this
      ensures View() == Disable(old(View()))
    {
      list, stack, memory := None, None, None;
    }

    method LockList()
      requires Wf(View())
      modifies this
      ensures View() == Lock(old(View())) && Wf(View())
    {
      DoWf(View(), OpLock);
      stack := None;
      if memory.None? { DisableList(); }
    }

    method FireWithData(data: D)
      requires Wf(View())
      modifies this
      ensures View() == FireWith(old(View()), data) && Wf(View())
    {
      DoWf(View(), OpFire(data));
      if list.Some? && (!fired || stack.Some?) {
        asked := asked + [data];
        if firing {
          stack := Some(stack.value + [data]);
        } else {
          Fire(data, true);
        }
      }
    }
  }
}
