/** What the four options of a callback list, lock and disable promise, over every run. */
module CallbackOptions {
  import opened Prelude
  import opened CallbackList
  import opened CallbackRuns

  /** Nobody is on the list twice. */
  ghost predicate Distinct<C>(s: seq<C>) {
    forall i, j :: 0 <= i < j < |s| ==> s[i] != s[j]
  }

  ghost predicate ListDistinct<C, D>(l: CList<C, D>) {
    l.list.Some? ==> Distinct(l.list.value)
  }

  // ----- the end of a walk -----

  /** Going on leaves the list of callbacks as it is, empties it or drops it. */
  lemma {:induction false} HeadKeepsList<C, D>(l: CList<C, D>)
    requires l.firing && l.current.Some? && 0 <= l.firingIndex
    requires l.list.Some? ==> l.firingLength == |l.list.value|
    ensures Head(l).options == l.options && (Head(l).list.None? || Head(l).list == l.list || Head(l).list == Some([]))
    decreases StackSize(l), 1
  {
    if !(l.list.Some? && l.firingIndex < l.firingLength) { FinishKeepsList(l); }
  }

  lemma {:induction false} FinishKeepsList<C, D>(l: CList<C, D>)
    ensures Finish(l).options == l.options && (Finish(l).list.None? || Finish(l).list == l.list || Finish(l).list == Some([]))
    decreases StackSize(l), 0
  {
    if l.list.Some? && l.stack.Some? && |l.stack.value| > 0 {
      HeadKeepsList(Begin(l.(firing := false, current := None, stack := Some(l.stack.value[1..])), l.stack.value[0], true));
    }
  }

  // ----- unique -----

  lemma {:induction false} AppendedDistinct<C>(list: seq<C>, cbs: seq<C>)
    requires Distinct(list)
    ensures Distinct(Appended(list, cbs, true))
    decreases |cbs|
  {
    if cbs != [] { AppendedDistinct(if cbs[0] in list then list else list + [cbs[0]], cbs[1..]); }
  }

  lemma {:induction false} WithoutDistinct<C>(s: seq<C>, x: C)
    requires Distinct(s)
    ensures Distinct(Without(s, x)) && forall c :: c in Without(s, x) ==> c in s
  {
    if s != [] {
      WithoutDistinct(s[1..], x);
      assert s[0] !in s[1..];
    }
  }

  lemma {:induction false} UniqueStep<C, D>(l: CList<C, D>, op: Op<C, D>)
    requires Wf(l) && l.options.unique && ListDistinct(l)
    ensures Do(l, op).options == l.options && ListDistinct(Do(l, op))
  {
    match op
    case OpAdd(cbs) =>
      if l.list.Some? {
        AppendedDistinct(l.list.value, cbs);
        if !l.firing && l.memory.Some? {
          HeadKeepsList(Begin(l.(list := Some(Appended(l.list.value, cbs, true)), firingStart := |l.list.value|), l.memory.value, false));
        }
      }
    case OpRemove(cb) => if l.list.Some? { WithoutDistinct(l.list.value, cb); }
    case OpFire(data) =>
      if l.list.Some? && (!l.fired || l.stack.Some?) && !l.firing { HeadKeepsList(Begin(l.(asked := l.asked + [data]), data, true)); }
    case OpReturn(refused) =>
      if l.firing {
        if refused && l.options.stopOnFalse { FinishKeepsList(l.(memory := None)); } else { HeadKeepsList(l.(firingIndex := l.firingIndex + 1)); }
      }
    case _ =>
  }

  lemma {:induction false} UniqueRun<C, D>(l: CList<C, D>, ops: seq<Op<C, D>>)
    requires Wf(l) && l.options.unique && ListDistinct(l)
    ensures ListDistinct(Run(l, ops))
    decreases |ops|
  {
    if ops != [] {
      UniqueStep(l, ops[0]);
      DoWf(l, ops[0]);
      UniqueRun(Do(l, ops[0]), ops[1..]);
    }
  }

  /** unique: whatever is done to the list, no callback is on it twice. */
  lemma NobodyTwice<C, D>(options: Options, ops: seq<Op<C, D>>)
    requires options.unique
    ensures var l := Run(New<C, D>(options), ops); l.list.Some? ==> Distinct(l.list.value)
  {
    UniqueRun(New<C, D>(options), ops);
  }

  /** Without it a callback is on the list as often as it was added. */
  lemma {:induction false} AddedAsGiven<C, D>(l: CList<C, D>, cbs: seq<C>)
    requires Wf(l) && l.list.Some? && !l.options.unique && (l.firing || l.memory.None?)
    ensures Add(l, cbs).list == Some(l.list.value + cbs)
  {
    AppendedPlain(l.list.value, cbs);
  }

  // ----- lock and disable -----

  /** No further request will be accepted. */
  ghost predicate Locked<C, D>(l: CList<C, D>) {
    Wf(l) && l.stack.None? && (l.list.Some? ==> l.fired)
  }

  lemma {:induction false} HeadLocked<C, D>(l: CList<C, D>)
    requires l.firing && l.current.Some? && 0 <= l.firingIndex && l.stack.None?
    requires l.list.Some? ==> l.firingLength == |l.list.value|
    ensures Head(l).asked == l.asked && Head(l).stack.None? && Head(l).fired == l.fired
    ensures forall d, j :: |l.log| <= j < |Head(l).log| ==> Head(l).log[j] != Started(d, true)
  {
  }

  lemma {:induction false} LockedStep<C, D>(l: CList<C, D>, op: Op<C, D>)
    requires Locked(l)
    ensures Locked(Do(l, op)) && Do(l, op).asked == l.asked
  {
    DoWf(l, op);
    match op
    case OpAdd(cbs) =>
      if l.list.Some? && !l.firing && l.memory.Some? {
        HeadLocked(Begin(l.(list := Some(Appended(l.list.value, cbs, l.options.unique)), firingStart := |l.list.value|), l.memory.value, false));
      }
    case OpReturn(refused) =>
      if l.firing && !(refused && l.options.stopOnFalse) { HeadLocked(l.(firingIndex := l.firingIndex + 1)); }
    case _ =>
  }

  lemma {:induction false} LockedRun<C, D>(l: CList<C, D>, ops: seq<Op<C, D>>)
    requires Locked(l)
    ensures Locked(Run(l, ops)) && Run(l, ops).asked == l.asked
    decreases |ops|
  {
    if ops != [] {
      LockedStep(l, ops[0]);
      LockedRun(Do(l, ops[0]), ops[1..]);
    }
  }

  /** lock: whatever is done afterwards, no request is accepted any more. */
  lemma LockIsFinal<C, D>(l: CList<C, D>, ops: seq<Op<C, D>>)
    requires Wf(l)
    ensures Wf(Lock(l)) && Run(Lock(l), ops).asked == l.asked
  {
    DoWf(l, OpLock);
    LockedRun(Lock(l), ops);
  }

  lemma {:induction false} DisabledStep<C, D>(l: CList<C, D>, op: Op<C, D>)
    requires Wf(l) && l.list.None?
    ensures Do(l, op).list.None? && Do(l, op).log == l.log && Do(l, op).asked == l.asked
  {
    match op
    case OpReturn(refused) =>
      if l.firing {
        var l1 := l.(firingIndex := l.firingIndex + 1);
        assert Head(l1) == Finish(l1) == l1.(firing := false, current := None);
      }
    case _ =>
  }

  lemma {:induction false} DisabledRun<C, D>(l: CList<C, D>, ops: seq<Op<C, D>>)
    requires Wf(l) && l.list.None?
    ensures Run(l, ops).list.None? && Run(l, ops).log == l.log && Run(l, ops).asked == l.asked
    decreases |ops|
  {
    if ops != [] {
      DoWf(l, ops[0]);
      DisabledStep(l, ops[0]);
      DisabledRun(Do(l, ops[0]), ops[1..]);
    }
  }

  /** disable: whatever is done afterwards, nothing is ever called again. */
  lemma DisableIsFinal<C, D>(l: CList<C, D>, ops: seq<Op<C, D>>)
    requires Wf(l)
    ensures Wf(Disable(l)) && Run(Disable(l), ops).log == l.log && Run(Disable(l), ops).asked == l.asked
  {
    DisabledRun(Disable(l), ops);
  }

  // ----- once -----

  /** At most one request was accepted, and everything called was called with it. */
  ghost predicate Single<C, D>(l: CList<C, D>) {
    && |l.asked| <= 1 && (l.fired <==> |l.asked| == 1)
    && (l.memory.Some? ==> l.fired && l.memory.value == l.asked[0])
    && (l.current.Some? ==> l.fired && l.current.value == l.asked[0])
    && forall e :: e in l.log ==> l.fired && (if e.Started? then e.data else e.arg) == l.asked[0]
  }

  lemma {:induction false} HeadSingle<C, D>(l: CList<C, D>)
    requires Single(l) && l.firing && l.current.Some? && 0 <= l.firingIndex && l.stack.None?
    requires l.list.Some? ==> l.firingLength == |l.list.value|
    ensures Single(Head(l))
  {
  }

  lemma {:induction false} SingleStep<C, D>(l: CList<C, D>, op: Op<C, D>)
    requires Wf(l) && l.options.once && Single(l)
    ensures Do(l, op).options == l.options && Single(Do(l, op))
  {
    match op
    case OpAdd(cbs) =>
      if l.list.Some? && !l.firing && l.memory.Some? {
        HeadSingle(Begin(l.(list := Some(Appended(l.list.value, cbs, l.options.unique)), firingStart := |l.list.value|), l.memory.value, false));
        HeadKeepsList(Begin(l.(list := Some(Appended(l.list.value, cbs, l.options.unique)), firingStart := |l.list.value|), l.memory.value, false));
      }
    case OpFire(data) =>
      if l.list.Some? && !l.fired && !l.firing {
        HeadSingle(Begin(l.(asked := l.asked + [data]), data, true));
        HeadKeepsList(Begin(l.(asked := l.asked + [data]), data, true));
      }
    case OpReturn(refused) =>
      if l.firing && !(refused && l.options.stopOnFalse) {
        HeadSingle(l.(firingIndex := l.firingIndex + 1));
        HeadKeepsList(l.(firingIndex := l.firingIndex + 1));
      }
    case _ =>
  }

  lemma {:induction false} SingleRun<C, D>(l: CList<C, D>, ops: seq<Op<C, D>>)
    requires Wf(l) && l.options.once && Single(l)
    ensures Single(Run(l, ops))
    decreases |ops|
  {
    if ops != [] {
      SingleStep(l, ops[0]);
      DoWf(l, ops[0]);
      SingleRun(Do(l, ops[0]), ops[1..]);
    }
  }

  /** once: at most one request is ever accepted, and nobody is ever called with anything else. */
  lemma FiredOnce<C, D>(options: Options, ops: seq<Op<C, D>>)
    requires options.once
    ensures var l := Run(New<C, D>(options), ops);
      |l.asked| <= 1 && forall e :: e in l.log ==> |l.asked| == 1 && (if e.Started? then e.data else e.arg) == l.asked[0]
  {
    SingleRun(New<C, D>(options), ops);
  }

  // ----- memory and stopOnFalse -----

  /** memory: a callback added to an idle list that remembers a value is called with it at once. */
  lemma {:induction false} AddedIsTold<C, D>(l: CList<C, D>, c: C)
    requires Wf(l) && l.list.Some? && !l.firing && l.memory.Some? && (l.options.unique ==> c !in l.list.value)
    ensures var r := Add(l, [c]);
      r.log == l.log + [Started(l.memory.value, false), Called(c, l.memory.value)] && r.firing && Todo(r) == []
  {
    assert Appended(l.list.value, [c], l.options.unique) == l.list.value + [c] by { assert [c][1..] == []; }
  }

  /** The list remembers the value of the walk begun last, unless a callback has refused since. */
  ghost predicate Remembers<C, D>(l: CList<C, D>) {
    l.list.Some? && l.options.memory ==> l.memory == Owner(l.log)
  }

  lemma {:induction false} HeadRemembers<C, D>(l: CList<C, D>)
    requires Remembers(l) && l.firing && l.current.Some? && 0 <= l.firingIndex
    requires l.list.Some? ==> l.firingLength == |l.list.value|
    ensures Remembers(Head(l))
    decreases StackSize(l), 1
  {
    if l.list.Some? && l.firingIndex < l.firingLength {
      LogStep(l.log, Called(l.list.value[l.firingIndex], l.current.value));
    } else {
      FinishRemembers(l);
    }
  }

  lemma {:induction false} FinishRemembers<C, D>(l: CList<C, D>)
    requires Remembers(l)
    ensures Remembers(Finish(l))
    decreases StackSize(l), 0
  {
    if l.list.Some? && l.stack.Some? && |l.stack.value| > 0 {
      var b := Begin(l.(firing := false, current := None, stack := Some(l.stack.value[1..])), l.stack.value[0], true);
      LogStep(l.log, Started(l.stack.value[0], true));
      HeadRemembers(b);
    }
  }

  lemma {:induction false} RemembersStep<C, D>(l: CList<C, D>, op: Op<C, D>)
    requires Wf(l) && Remembers(l) && !(op.OpReturn? && op.refused && l.options.stopOnFalse)
    ensures Do(l, op).options == l.options && Remembers(Do(l, op))
  {
    match op
    case OpAdd(cbs) =>
      if l.list.Some? && !l.firing && l.memory.Some? {
        var b := Begin(l.(list := Some(Appended(l.list.value, cbs, l.options.unique)), firingStart := |l.list.value|), l.memory.value, false);
        LogStep(l.log, Started(l.memory.value, false));
        HeadRemembers(b);
        HeadKeepsList(b);
      }
    case OpFire(data) =>
      if l.list.Some? && (!l.fired || l.stack.Some?) && !l.firing {
        LogStep(l.log, Started(data, true));
        HeadRemembers(Begin(l.(asked := l.asked + [data]), data, true));
        HeadKeepsList(Begin(l.(asked := l.asked + [data]), data, true));
      }
    case OpReturn(refused) =>
      if l.firing {
        HeadRemembers(l.(firingIndex := l.firingIndex + 1));
        HeadKeepsList(l.(firingIndex := l.firingIndex + 1));
      }
    case _ =>
  }

  lemma {:induction false} RemembersRun<C, D>(l: CList<C, D>, ops: seq<Op<C, D>>)
    requires Wf(l) && Remembers(l) && !l.options.stopOnFalse
    ensures Remembers(Run(l, ops))
    decreases |ops|
  {
    if ops != [] {
      RemembersStep(l, ops[0]);
      DoWf(l, ops[0]);
      RemembersRun(Do(l, ops[0]), ops[1..]);
    }
  }

  /** memory: without stopOnFalse a list that is still in use remembers the value of the walk begun last. */
  lemma LastIsRemembered<C, D>(options: Options, ops: seq<Op<C, D>>)
    requires options.memory && !options.stopOnFalse
    ensures var l := Run(New<C, D>(options), ops); l.list.Some? && l.options.memory ==> l.memory == Owner(l.log)
  {
    RemembersRun(New<C, D>(options), ops);
  }

  /** The log went on with nothing or with the next request, and is at its first callback. */
  ghost predicate NextRequest<C, D>(l: CList<C, D>, r: CList<C, D>) {
    && l.log <= r.log
    && (|r.log| > |l.log| ==> l.stack.Some? && l.stack.value != [] && r.log[|l.log|] == Started(l.stack.value[0], true))
    && (|r.log| == |l.log| ==> !r.firing)
  }

  /** The walk is over: what runs next is a waiting request, if any. */
  lemma {:induction false} FinishGoesOn<C, D>(l: CList<C, D>)
    ensures NextRequest(l, Finish(l))
  {
    if l.list.Some? && l.stack.Some? && |l.stack.value| > 0 {
      HeadLog(Begin(l.(firing := false, current := None, stack := Some(l.stack.value[1..])), l.stack.value[0], true));
    }
  }

  lemma {:induction false} HeadLog<C, D>(l: CList<C, D>)
    requires l.firing && l.current.Some? && 0 <= l.firingIndex
    requires l.list.Some? ==> l.firingLength == |l.list.value|
    ensures l.log <= Head(l).log
    decreases StackSize(l), 1
  {
    if !(l.list.Some? && l.firingIndex < l.firingLength) { FinishLog(l); }
  }

  lemma {:induction false} FinishLog<C, D>(l: CList<C, D>)
    ensures l.log <= Finish(l).log
    decreases StackSize(l), 0
  {
    if l.list.Some? && l.stack.Some? && |l.stack.value| > 0 {
      HeadLog(Begin(l.(firing := false, current := None, stack := Some(l.stack.value[1..])), l.stack.value[0], true));
    }
  }

  /** A callback returned: with stopOnFalse a refusal ends the walk there, otherwise the next one is called, if there is one. */
  lemma {:induction false} AfterReturn<C, D>(l: CList<C, D>, refused: bool)
    requires Wf(l) && l.firing
    ensures var r := Return(l, refused);
      if !(refused && l.options.stopOnFalse) && Todo(l) != [] then r.log == l.log + [Called(Todo(l)[0], l.current.value)] && Todo(r) == Todo(l)[1..]
      else NextRequest(l, r)
  {
    if refused && l.options.stopOnFalse {
      FinishGoesOn(l.(memory := None));
    } else if l.list.None? || l.firingIndex + 1 >= l.firingLength {
      FinishGoesOn(l.(firingIndex := l.firingIndex + 1));
    }
  }

  /** After a refusal the list remembers nothing until a request is run. */
  lemma {:induction false} RefusalForgets<C, D>(l: CList<C, D>)
    requires Wf(l) && l.firing && l.options.stopOnFalse && |Return(l, true).log| == |l.log|
    ensures Return(l, true).memory.None?
  {
    FinishGoesOn(l.(memory := None));
    if l.list.Some? && l.stack.Some? && |l.stack.value| > 0 {
      HeadLog(Begin(l.(memory := None, firing := false, current := None, stack := Some(l.stack.value[1..])), l.stack.value[0], true));
    }
  }
}
