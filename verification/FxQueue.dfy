/** The fx queue of an element: a FIFO guarded by a sentinel, with hooks that fire when it runs empty. */
module FxQueue {
  import opened Prelude

  // ----- specification: a server that runs one function at a time -----

  /** Functions are numbered as they are queued; those below finished have called next. */
  datatype Server = Server(queued: nat, started: nat, finished: nat)

  datatype Event = Queued(n: nat) | Started(n: nat) | Nexted(n: nat) | Emptied

  datatype Action = Queue | Next

  predicate Busy(s: Server) {
    s.finished < s.started
  }

  /** At most one function is in progress, and none is pending while none is. */
  predicate Ok(s: Server) {
    s.finished <= s.started <= s.finished + 1 && s.started <= s.queued && (!Busy(s) ==> s.started == s.queued)
  }

  /** The function in progress calls next only if there is one. */
  predicate Enabled(s: Server, a: Action) {
    a.Next? ==> Busy(s)
  }

  function Serve(s: Server, a: Action): (t: Server)
    requires Ok(s) && Enabled(s, a)
    ensures Ok(t)
  {
    match a
    case Queue => Server(s.queued + 1, if Busy(s) then s.started else s.started + 1, s.finished)
    case Next => Server(s.queued, if s.started < s.queued then s.started + 1 else s.started, s.finished + 1)
  }

  /** What an action makes happen, in order. */
  function Happens(s: Server, a: Action): seq<Event>
    requires Ok(s) && Enabled(s, a)
  {
    match a
    case Queue => [Queued(s.queued)] + if Busy(s) then [] else [Started(s.queued)]
    case Next => [Nexted(s.finished)] + if s.started < s.queued then [Started(s.started)] else [Emptied]
  }

  const IDLE := Server(0, 0, 0)

  predicate AllEnabled(s: Server, actions: seq<Action>)
    requires Ok(s)
    decreases |actions|
  {
    actions == [] || (Enabled(s, actions[0]) && AllEnabled(Serve(s, actions[0]), actions[1..]))
  }

  function Log(s: Server, actions: seq<Action>): seq<Event>
    requires Ok(s) && AllEnabled(s, actions)
    decreases |actions|
  {
    if actions == [] then [] else Happens(s, actions[0]) + Log(Serve(s, actions[0]), actions[1..])
  }

  // ----- what this means for a whole run -----

  /** The functions started, in order. */
  function Starts(log: seq<Event>): seq<nat> {
    if log == [] then [] else (if log[0].Started? then [log[0].n] else []) + Starts(log[1..])
  }

  function Nexts(log: seq<Event>): seq<nat> {
    if log == [] then [] else (if log[0].Nexted? then [log[0].n] else []) + Nexts(log[1..])
  }

  function Numbers(a: nat, b: nat): seq<nat>
    requires a <= b
    decreases b - a
  {
    if a == b then [] else [a] + Numbers(a + 1, b)
  }

  function Final(s: Server, actions: seq<Action>): (t: Server)
    requires Ok(s) && AllEnabled(s, actions)
    ensures Ok(t) && t.started >= s.started && t.finished >= s.finished
    decreases |actions|
  {
    if actions == [] then s else Final(Serve(s, actions[0]), actions[1..])
  }

  lemma {:induction false} StartsConcat(a: seq<Event>, b: seq<Event>)
    ensures Starts(a + b) == Starts(a) + Starts(b)
  {
    if a == [] { assert a + b == b; } else {
      assert (a + b)[0] == a[0] && (a + b)[1..] == a[1..] + b;
      StartsConcat(a[1..], b);
    }
  }

  lemma {:induction false} NextsConcat(a: seq<Event>, b: seq<Event>)
    ensures Nexts(a + b) == Nexts(a) + Nexts(b)
  {
    if a == [] { assert a + b == b; } else {
      assert (a + b)[0] == a[0] && (a + b)[1..] == a[1..] + b;
      NextsConcat(a[1..], b);
    }
  }

  lemma {:induction false} EmptiesConcat(a: seq<Event>, b: seq<Event>)
    ensures Empties(a + b) == Empties(a) + Empties(b)
  {
    if a == [] { assert a + b == b; } else {
      assert (a + b)[0] == a[0] && (a + b)[1..] == a[1..] + b;
      EmptiesConcat(a[1..], b);
    }
  }

  lemma One(e: Event)
    ensures Starts([e]) == if e.Started? then [e.n] else []
    ensures Nexts([e]) == if e.Nexted? then [e.n] else []
    ensures Empties([e]) == if e.Emptied? then 1 else 0
  {
    assert [e][1..] == [];
  }

  lemma Two(e: Event, f: Event)
    ensures Starts([e, f]) == Starts([e]) + Starts([f])
    ensures Nexts([e, f]) == Nexts([e]) + Nexts([f])
    ensures Empties([e, f]) == Empties([e]) + Empties([f])
  {
    StartsConcat([e], [f]);
    NextsConcat([e], [f]);
    EmptiesConcat([e], [f]);
    assert [e] + [f] == [e, f];
  }

  function Empties(log: seq<Event>): nat {
    if log == [] then 0 else (if log[0].Emptied? then 1 else 0) + Empties(log[1..])
  }

  /** The busy periods that begin. */
  function Periods(s: Server, actions: seq<Action>): nat
    requires Ok(s) && AllEnabled(s, actions)
    decreases |actions|
  {
    if actions == [] then 0
    else (if actions[0].Queue? && !Busy(s) then 1 else 0) + Periods(Serve(s, actions[0]), actions[1..])
  }

  lemma HappensMeans(s: Server, a: Action)
    requires Ok(s) && Enabled(s, a)
    ensures var t, h := Serve(s, a), Happens(s, a);
      && Starts(h) == Numbers(s.started, t.started) && Nexts(h) == Numbers(s.finished, t.finished)
      && Empties(h) + (if Busy(t) then 1 else 0) == (if Busy(s) then 1 else 0) + if a.Queue? && !Busy(s) then 1 else 0
  {
    var t, h := Serve(s, a), Happens(s, a);
    One(h[0]);
    if |h| > 1 {
      One(h[1]);
      Two(h[0], h[1]);
      assert h == [h[0], h[1]];
    } else {
      assert h == [h[0]];
    }
    assert Numbers(t.started, t.started) == [] && Numbers(t.finished, t.finished) == [];
  }

  lemma {:induction false} NumbersConcat(a: nat, b: nat, c: nat)
    requires a <= b <= c
    ensures Numbers(a, b) + Numbers(b, c) == Numbers(a, c)
    decreases b - a
  {
    if a < b { NumbersConcat(a + 1, b, c); }
  }

  /** Every function starts once and calls next once, in the order of queueing; the hook takes effect once per busy period. */
  lemma {:induction false} RunInOrder(s: Server, actions: seq<Action>)
    requires Ok(s) && AllEnabled(s, actions)
    ensures var t, log := Final(s, actions), Log(s, actions);
      && Starts(log) == Numbers(s.started, t.started) && Nexts(log) == Numbers(s.finished, t.finished)
      && Empties(log) + (if Busy(t) then 1 else 0) == (if Busy(s) then 1 else 0) + Periods(s, actions)
    decreases |actions|
  {
    if actions != [] {
      var u := Serve(s, actions[0]);
      HappensMeans(s, actions[0]);
      RunInOrder(u, actions[1..]);
      var t := Final(s, actions);
      StartsConcat(Happens(s, actions[0]), Log(u, actions[1..]));
      NextsConcat(Happens(s, actions[0]), Log(u, actions[1..]));
      EmptiesConcat(Happens(s, actions[0]), Log(u, actions[1..]));
      NumbersConcat(s.started, u.started, t.started);
      NumbersConcat(s.finished, u.finished, t.finished);
    }
  }

  /** The next call of a function is followed at once by the start of the next one, or by the hook if none is pending. */
  ghost predicate Alternates(s: Server, log: seq<Event>)
    decreases |log|
  {
    log != [] ==>
      match log[0]
      case Queued(n) => n == s.queued && Alternates(s.(queued := n + 1), log[1..])
      case Started(n) => n == s.started < s.queued && !Busy(s) && Alternates(s.(started := n + 1), log[1..])
      case Nexted(n) =>
        && n == s.finished && Busy(s) && |log| > 1
        && (if s.started < s.queued then log[1] == Started(n + 1) else log[1] == Emptied)
        && Alternates(s.(finished := n + 1), log[1..])
      case Emptied => !Busy(s) && s.started == s.queued && Alternates(s, log[1..])
  }

  lemma {:induction false} LogAlternates(s: Server, actions: seq<Action>)
    requires Ok(s) && AllEnabled(s, actions)
    ensures Alternates(s, Log(s, actions))
    decreases |actions|
  {
    if actions != [] {
      var u := Serve(s, actions[0]);
      LogAlternates(u, actions[1..]);
      var h, rest := Happens(s, actions[0]), Log(u, actions[1..]);
      var log := h + rest;
      assert log[0] == h[0];
      if |h| > 1 {
        assert log[1] == h[1] && log[1..][0] == h[1];
        assert log[1..][1..] == rest;
      } else {
        assert log[1..] == rest;
      }
    }
  }

  // ----- the element -----

  datatype Item = Sentinel | Fn(n: nat)

  /** A call on the stack: function n, called by dequeue on array q with hooks h; or callbacks of the empty hook. */
  datatype Frame = Running(n: nat, q: nat, h: nat) | Firing

  function Items(a: nat, b: nat): seq<Item>
    requires a <= b
    decreases b - a
  {
    if a == b then [] else [Fn(a)] + Items(a + 1, b)
  }

  lemma {:induction false} ItemsAreFunctions(a: nat, b: nat)
    requires a <= b
    ensures |Items(a, b)| == b - a && forall k :: 0 <= k < b - a ==> Items(a, b)[k] == Fn(a + k)
    decreases b - a
  {
    if a < b { ItemsAreFunctions(a + 1, b); }
  }

  lemma {:induction false} ItemsAppend(a: nat, b: nat)
    requires a <= b
    ensures Items(a, b + 1) == Items(a, b) + [Fn(b)]
    decreases b - a
  {
    if a == b { assert Items(b + 1, b + 1) == []; } else { ItemsAppend(a + 1, b); }
  }

  class Element {
    var arrays: seq<seq<Item>>  // every queue array made so far
    var stored: Option<nat>     // the one in the element's data
    var fired: seq<bool>        // for every hooks object, whether its empty list has fired
    var hooks: Option<nat>      // the one in the element's data
    var stack: seq<Frame>
    var log: seq<Event>
    ghost var server: Server

    /** While busy the stored queue is the sentinel and the pending functions; every other array is used up and its hook has fired. */
    ghost predicate Valid()
      reads this
    {
      && Ok(server)
      && (if Busy(server) then
            && stored.Some? && stored.value < |arrays| && hooks.Some? && hooks.value < |fired| && !fired[hooks.value]
            && arrays[stored.value] == [Sentinel] + Items(server.started, server.queued)
          else stored.None? && hooks.None?)
      && forall k :: 0 <= k < |stack| ==> FrameOk(stack[k])
    }

    ghost predicate FrameOk(f: Frame)
      reads this
    {
      f.Running? ==>
        && f.q < |arrays| && f.h < |fired|
        && ((Some(f.q) == stored && Some(f.h) == hooks) || (arrays[f.q] == [] && fired[f.h]))
    }

    constructor ()
      ensures Valid() && server == IDLE && log == []
    {
      arrays, stored, fired, hooks, stack, log := [], None, [], None, [], [];
      server := IDLE;
    }

    /** The element has a queue and hooks that have not fired. */
    ghost predicate Refs()
      reads this
    {
      stored.Some? && stored.value < |arrays| && hooks.Some? && hooks.value < |fired| && !fired[hooks.value]
    }

    /** jQuery.dequeue, up to the call of the function it takes or the callbacks of the empty hook. */
    method Dequeue(ghost pending: seq<Item>)
      requires Refs() && forall k :: 0 <= k < |pending| ==> pending[k].Fn?
      requires arrays[stored.value] == pending || arrays[stored.value] == [Sentinel] + pending
      modifies this
      ensures server == old(server)
      ensures pending != [] ==>
        && stored == old(stored) && hooks == old(hooks) && fired == old(fired)
        && arrays == old(arrays)[stored.value := [Sentinel] + pending[1..]]
        && stack == old(stack) + [Running(pending[0].n, stored.value, hooks.value)]
        && log == old(log) + [Started(pending[0].n)]
      ensures pending == [] ==>
        && stored == None && hooks == None && fired == old(fired[hooks.value := true])
        && arrays == old(arrays[stored.value := []])
        && stack == old(stack) + [Firing] && log == old(log) + [Emptied]
    {
      var q, h := stored.value, hooks.value;
      var queue := arrays[q];
      var fn: Option<Item> := None;
      if |queue| > 0 { fn, queue := Some(queue[0]), queue[1..]; }
      if fn == Some(Sentinel) {
        fn := None;
        if |queue| > 0 { fn, queue := Some(queue[0]), queue[1..]; }
      }
      if fn.Some? {
        queue := [Sentinel] + queue;
        arrays := arrays[q := queue];
        log := log + [Started(fn.value.n)];
        stack := stack + [Running(fn.value.n, q, h)];
      } else {
        arrays := arrays[q := queue];
        FireEmpty(h);
      }
    }

    /** hooks.empty.fire(), a once-memory list whose first callback drops the queue and the hooks from the data. */
    method FireEmpty(h: nat)
      requires h < |fired|
      modifies this
      ensures server == old(server) && arrays == old(arrays)
      ensures old(fired[h]) ==>
        stored == old(stored) && hooks == old(hooks) && fired == old(fired) && stack == old(stack) && log == old(log)
      ensures !old(fired[h]) ==>
        && stored == None && hooks == None && fired == old(fired[h := true])
        && stack == old(stack) + [Firing] && log == old(log) + [Emptied]
    {
      if fired[h] { return; }
      fired := fired[h := true];
      stored, hooks := None, None;
      log := log + [Emptied];
      stack := stack + [Firing];
    }

    /** fn.queue with one function, from wherever it is called. */
    method Queue(n: nat)
      requires Valid() && n == server.queued
      modifies this
      ensures Valid() && server == Serve(old(server), Action.Queue)
      ensures log == old(log) + Happens(old(server), Action.Queue)
      ensures |stack| >= |old(stack)| && stack[..|old(stack)|] == old(stack)
    {
      ghost var s := server;
      ghost var was := stack;
      log := log + [Queued(n)];
      if stored.None? {
        arrays, stored := arrays + [[Fn(n)]], Some(|arrays|);
      } else {
        arrays := arrays[stored.value := arrays[stored.value] + [Fn(n)]];
      }
      if hooks.None? { fired, hooks := fired + [false], Some(|fired|); }
      ItemsAppend(s.started, s.queued);
      if arrays[stored.value][0] != Sentinel {
        Dequeue([Fn(n)]);
        assert Items(n + 1, n + 1) == [];
      }
      server := Serve(s, Action.Queue);
      assert forall k :: 0 <= k < |was| ==> stack[k] == was[k];
    }

    /** The function in progress calls next, from wherever that happens. */
    method Next(running: nat)
      requires Valid() && Busy(server) && running == server.finished
      modifies this
      ensures Valid() && server == Serve(old(server), Action.Next)
      ensures log == old(log) + Happens(old(server), Action.Next)
      ensures |stack| >= |old(stack)| && stack[..|old(stack)|] == old(stack)
    {
      ghost var s := server;
      ghost var was := stack;
      log := log + [Nexted(running)];
      ItemsAreFunctions(s.started, s.queued);
      Dequeue(Items(s.started, s.queued));
      server := Serve(s, Action.Next);
      assert forall k :: 0 <= k < |was| ==> stack[k] == was[k];
    }

    /** The call on top of the stack returns; a function returns into the rest of the dequeue that called it. */
    method Return()
      requires Valid() && stack != []
      modifies this
      ensures Valid() && server == old(server) && log == old(log) && stack == old(stack)[..|old(stack)| - 1]
    {
      var top := stack[|stack| - 1];
      stack := stack[..|stack| - 1];
      assert FrameOk(top);
      if top.Running? && |arrays[top.q]| == 0 { FireEmpty(top.h); }
    }
  }

  // ----- a run of the element -----

  /** An action of the page, or the return of the call on top of the stack. */
  datatype Move = Do(action: Action) | Back

  function Actions(moves: seq<Move>): seq<Action> {
    if moves == [] then []
    else
      var n := |moves| - 1;
      Actions(moves[..n]) + if moves[n].Do? then [moves[n].action] else []
  }

  lemma {:induction false} EnabledPrefix(s: Server, a: seq<Action>, b: seq<Action>)
    requires Ok(s) && AllEnabled(s, a + b)
    ensures AllEnabled(s, a)
    decreases |a|
  {
    if a != [] {
      assert (a + b)[1..] == a[1..] + b;
      EnabledPrefix(Serve(s, a[0]), a[1..], b);
    }
  }

  /** One more action. */
  lemma {:induction false} OneMore(s: Server, a: seq<Action>, x: Action)
    requires Ok(s) && AllEnabled(s, a + [x])
    ensures AllEnabled(s, a) && Enabled(Final(s, a), x)
    ensures Final(s, a + [x]) == Serve(Final(s, a), x) && Log(s, a + [x]) == Log(s, a) + Happens(Final(s, a), x)
    decreases |a|
  {
    if a == [] {
      assert a + [x] == [x] && [x][1..] == [];
    } else {
      assert (a + [x])[1..] == a[1..] + [x];
      OneMore(Serve(s, a[0]), a[1..], x);
    }
  }

  lemma {:induction false} ActionsPrefix(moves: seq<Move>, i: nat) returns (more: seq<Action>)
    requires i <= |moves|
    ensures Actions(moves) == Actions(moves[..i]) + more
    decreases |moves|
  {
    if i == |moves| {
      more := [];
      assert moves[..i] == moves;
    } else {
      var n := |moves| - 1;
      more := ActionsPrefix(moves[..n], i);
      assert moves[..n][..i] == moves[..i];
      more := more + if moves[n].Do? then [moves[n].action] else [];
    }
  }

  /**
   Any queueing and calling of next on a new element, with calls returning at any
   moments in between: every function starts once and in the order of queueing, the
   hook takes effect once per busy period, and nothing comes between a next and what
   it leads to.
   */
  method RunElement(moves: seq<Move>) returns (e: Element)
    requires AllEnabled(IDLE, Actions(moves))
    ensures fresh(e) && e.Valid() && e.server == Final(IDLE, Actions(moves)) && e.log == Log(IDLE, Actions(moves))
    ensures Starts(e.log) == Numbers(0, e.server.started) && Nexts(e.log) == Numbers(0, e.server.finished)
    ensures Empties(e.log) + (if Busy(e.server) then 1 else 0) == Periods(IDLE, Actions(moves))
    ensures Alternates(IDLE, e.log)
  {
    e := new Element();
    var i, queued, finished := 0, 0, 0;
    while i < |moves|
      invariant i <= |moves| && fresh(e) && e.Valid() && queued == e.server.queued && finished == e.server.finished
      invariant AllEnabled(IDLE, Actions(moves[..i]))
      invariant e.server == Final(IDLE, Actions(moves[..i])) && e.log == Log(IDLE, Actions(moves[..i]))
      modifies e
    {
      ghost var done := Actions(moves[..i]);
      assert moves[..i + 1][..i] == moves[..i];
      ghost var more := ActionsPrefix(moves, i + 1);
      EnabledPrefix(IDLE, Actions(moves[..i + 1]), more);
      if moves[i].Do? {
        OneMore(IDLE, done, moves[i].action);
        if moves[i].action == Action.Queue {
          e.Queue(queued);
          queued := queued + 1;
        } else {
          e.Next(finished);
          finished := finished + 1;
        }
      } else {
        assert Actions(moves[..i + 1]) == done;
        if e.stack != [] { e.Return(); }
      }
      i := i + 1;
    }
    assert moves[..i] == moves;
    RunInOrder(IDLE, Actions(moves));
    LogAlternates(IDLE, Actions(moves));
  }
}
