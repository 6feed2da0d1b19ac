/**
 The state of one jQuery.Callbacks object and the effect of its operations,
 as functions on values. The loop inside the source's private `fire` hands
 control to foreign code once per callback, so it is cut there: a list that is
 firing is suspended inside a callback, and Return resumes it.
 */
module CallbackList {
  import opened Prelude

  datatype Options = Options(once: bool, memory: bool, unique: bool, stopOnFalse: bool)

  /** What happened to the list, oldest first. */
  datatype Event<C, D> =
    | Started(data: D, requested: bool) // a walk over the list began; requested: by fireWith
    | Called(cb: C, arg: D)

  /** The closure variables of the source. None in list and stack stands for undefined. */
  datatype CList<C(==), D> = CList(
    options: Options,
    list: Option<seq<C>>,
    memory: Option<D>,
    fired: bool,
    firing: bool,
    firingStart: nat,
    firingLength: int,
    firingIndex: int,
    stack: Option<seq<D>>,
    current: Option<D>,       // the argument of the active `fire`
    log: seq<Event<C, D>>,
    asked: seq<D>)            // the accepted fireWith requests

  function New<C, D>(options: Options): CList<C, D> {
    CList(options, Some([]), None, false, false, 0, 0, 0,
          if options.once then None else Some([]), None, [], [])
  }

  function StackSize<C, D>(l: CList<C, D>): nat {
    if l.stack.Some? then |l.stack.value| else 0
  }

  /** The callbacks of the running walk that have not been reached yet. */
  function Todo<C, D>(l: CList<C, D>): seq<C> {
    if l.firing && l.list.Some? && -1 <= l.firingIndex < |l.list.value|
    then l.list.value[l.firingIndex + 1..] else []
  }

  /** list.push for each function, with the `unique` test against the growing list. */
  function Appended<C(==)>(list: seq<C>, cbs: seq<C>, unique: bool): (r: seq<C>)
    ensures list <= r
    decreases |cbs|
  {
    if cbs == [] then list
    else if unique && cbs[0] in list then Appended(list, cbs[1..], unique)
    else Appended(list + [cbs[0]], cbs[1..], unique)
  }

  /** The prologue of `fire`. */
  function Begin<C, D>(l: CList<C, D>, data: D, requested: bool): CList<C, D>
    requires l.list.Some?
  {
    l.(memory := if l.options.memory then Some(data) else None,
       fired := true,
       firingIndex := l.firingStart,
       firingStart := 0,
       firingLength := |l.list.value|,
       firing := true,
       current := Some(data),
       log := l.log + [Started(data, requested)])
  }

  function Disable<C, D>(l: CList<C, D>): CList<C, D> {
    l.(list := None, stack := None, memory := None)
  }

  function Lock<C, D>(l: CList<C, D>): CList<C, D> {
    var l1 := l.(stack := None);
    if l1.memory.None? then Disable(l1) else l1
  }

  /** The head of the loop in `fire`: calls the callback under the cursor or leaves the loop. */
  function Head<C, D>(l: CList<C, D>): CList<C, D>
    requires l.firing && l.current.Some? && 0 <= l.firingIndex
    requires l.list.Some? ==> l.firingLength == |l.list.value|
    decreases StackSize(l), 1
  {
    if l.list.Some? && l.firingIndex < l.firingLength then
      l.(log := l.log + [Called(l.list.value[l.firingIndex], l.current.value)])
    else
      Finish(l)
  }

  /** The epilogue of `fire`, with its tail call for a waiting request. */
  function Finish<C, D>(l: CList<C, D>): CList<C, D>
    decreases StackSize(l), 0
  {
    var l1 := l.(firing := false, current := None);
    if l.list.None? then l1
    else if l.stack.Some? then
      if |l.stack.value| > 0
      then Head(Begin(l1.(stack := Some(l.stack.value[1..])), l.stack.value[0], true))
      else l1
    else if l.memory.Some? then l1.(list := Some([]))
    else Disable(l1)
  }

  function Add<C, D>(l: CList<C, D>, cbs: seq<C>): CList<C, D>
  {
    if l.list.None? then l
    else
      var start := |l.list.value|;
      var l1 := l.(list := Some(Appended(l.list.value, cbs, l.options.unique)));
      if l.firing then l1.(firingLength := |l1.list.value|)
      else if l.memory.Some? then Head(Begin(l1.(firingStart := start), l.memory.value, false))
      else l1
  }

  /** remove(x): every occurrence goes; both firing marks follow. */
  function Remove<C, D>(l: CList<C, D>, x: C): CList<C, D>
  {
    if l.list.None? then l
    else
      var list := l.list.value;
      var l1 := l.(list := Some(Without(list, x)));
      if l.firing && -1 <= l.firingIndex < |list| then
        l1.(firingLength := l.firingLength - Count(list, x),
            firingIndex := l.firingIndex - Count(list[..l.firingIndex + 1], x))
      else l1
  }

  function FireWith<C, D>(l: CList<C, D>, data: D): CList<C, D>
  {
    if l.list.Some? && (!l.fired || l.stack.Some?) then
      if l.firing then
        if l.stack.Some?
        then l.(stack := Some(l.stack.value + [data]), asked := l.asked + [data])
        else l
      else Head(Begin(l.(asked := l.asked + [data]), data, true))
    else l
  }

  /** The running callback returned; refused: it returned false. */
  function Return<C, D>(l: CList<C, D>, refused: bool): CList<C, D>
    requires Wf(l) && l.firing
  {
    if refused && l.options.stopOnFalse then Finish(l.(memory := None))
    else Head(l.(firingIndex := l.firingIndex + 1))
  }

  /** What holds whenever foreign code is in control. */
  ghost predicate Wf<C, D>(l: CList<C, D>) {
    && l.firingStart == 0
    && (l.firing ==> l.fired && l.current.Some? && -1 <= l.firingIndex)
    && (l.firing && l.list.Some? ==> l.firingLength == |l.list.value| && l.firingIndex < |l.list.value|)
    && (!l.firing ==> l.current.None? && (l.stack.Some? ==> l.stack.value == []))
    && (l.list.None? ==> l.stack.None? && l.memory.None?)
    && (l.memory.Some? ==> l.fired && l.options.memory)
    && (l.options.once ==> l.stack.None?)
  }

  // ----- operations as data, so that runs can be quantified over -----

  datatype Op<C, D> =
    | OpAdd(cbs: seq<C>)
    | OpRemove(cb: C)
    | OpFire(data: D)
    | OpReturn(refused: bool)
    | OpLock
    | OpDisable

  function Do<C, D>(l: CList<C, D>, op: Op<C, D>): CList<C, D>
    requires Wf(l)
  {
    match op
    case OpAdd(cbs) => Add(l, cbs)
    case OpRemove(cb) => Remove(l, cb)
    case OpFire(data) => FireWith(l, data)
    case OpReturn(refused) => if l.firing then Return(l, refused) else l
    case OpLock => Lock(l)
    case OpDisable => Disable(l)
  }

  function Run<C, D>(l: CList<C, D>, ops: seq<Op<C, D>>): (r: CList<C, D>)
    requires Wf(l)
    ensures Wf(r)
    decreases |ops|
  {
    if ops == [] then l else DoWf(l, ops[0]); Run(Do(l, ops[0]), ops[1..])
  }

  lemma BeginHeadWf<C, D>(l: CList<C, D>, data: D, requested: bool)
    requires l.list.Some? && l.firingStart <= |l.list.value|
    requires l.options.once ==> l.stack.None?
    ensures Wf(Head(Begin(l, data, requested)))
    decreases StackSize(l), 1
  {
    var b := Begin(l, data, requested);
    if b.firingIndex >= b.firingLength { FinishWf(b); }
  }

  lemma FinishWf<C, D>(l: CList<C, D>)
    requires l.firingStart == 0
    requires l.list.None? ==> l.stack.None? && l.memory.None?
    requires l.memory.Some? ==> l.fired && l.options.memory
    requires l.options.once ==> l.stack.None?
    ensures Wf(Finish(l))
    decreases StackSize(l), 0
  {
    if l.list.Some? && l.stack.Some? && |l.stack.value| > 0 {
      BeginHeadWf(l.(firing := false, current := None, stack := Some(l.stack.value[1..])), l.stack.value[0], true);
    }
  }

  lemma CountBound<C>(s: seq<C>, i: nat, x: C)
    requires i <= |s|
    ensures Count(s[..i], x) <= i
    ensures Without(s, x) == Without(s[..i], x) + Without(s[i..], x)
    ensures |Without(s[..i], x)| == i - Count(s[..i], x)
    ensures Count(s, x) == Count(s[..i], x) + Count(s[i..], x)
  {
    assert s == s[..i] + s[i..];
    WithoutConcat(s[..i], s[i..], x);
    WithoutLength(s[..i], x);
    WithoutLength(s[i..], x);
    WithoutLength(s, x);
  }

  lemma DoWf<C, D>(l: CList<C, D>, op: Op<C, D>)
    requires Wf(l)
    ensures Wf(Do(l, op))
  {
    match op
    case OpAdd(cbs) =>
      if l.list.Some? && !l.firing && l.memory.Some? {
        BeginHeadWf(l.(list := Some(Appended(l.list.value, cbs, l.options.unique)), firingStart := |l.list.value|),
                    l.memory.value, false);
      }
    case OpRemove(cb) =>
      if l.list.Some? && l.firing {
        RemoveKeepsCursor(l, cb);
      }
    case OpFire(data) =>
      if l.list.Some? && (!l.fired || l.stack.Some?) && !l.firing {
        BeginHeadWf(l.(asked := l.asked + [data]), data, true);
      }
    case OpReturn(refused) =>
      if l.firing {
        if refused && l.options.stopOnFalse {
          FinishWf(l.(memory := None));
        } else if l.list.None? || l.firingIndex + 1 >= l.firingLength {
          FinishWf(l.(firingIndex := l.firingIndex + 1));
        }
      }
    case OpLock =>
    case OpDisable =>
  }

  /** remove while firing: the marks stay right and the unreached part is exactly the filtered old one. */
  lemma RemoveKeepsCursor<C, D>(l: CList<C, D>, x: C)
    requires Wf(l) && l.firing && l.list.Some?
    ensures var r := Remove(l, x);
      && r.list.Some? && x !in r.list.value
      && r.firingLength == |r.list.value|
      && -1 <= r.firingIndex < |r.list.value|
      && r.list.value[..r.firingIndex + 1] == Without(l.list.value[..l.firingIndex + 1], x)
      && Todo(r) == Without(Todo(l), x)
  {
    var i := l.firingIndex + 1;
    CountBound(l.list.value, i, x);
    WithoutLength(l.list.value, x);
  }

  /** Without `unique` every callback is pushed. */
  lemma AppendedPlain<C>(list: seq<C>, cbs: seq<C>)
    ensures Appended(list, cbs, false) == list + cbs
    decreases |cbs|
  {
    if cbs != [] {
      AppendedPlain(list + [cbs[0]], cbs[1..]);
      assert list + cbs == list + [cbs[0]] + cbs[1..];
    }
  }
}
