/** The handler lists that jQuery.event.add and jQuery.event.remove keep for one element. */
module Events {
  import opened Prelude
  import Namespaces

  /** A registered handler; the selector is empty for a directly bound one. */
  datatype HandleObj = HandleObj(origType: string, guid: nat, selector: string, namespaces: Namespaces.OwnNames)

  /** What a call of remove asks for; mapped: no type was given. */
  datatype Request = Request(origType: string, mapped: bool, guid: Option<nat>, selector: string, namespaces: Namespaces.AskedNames)

  predicate IsDelegated(h: HandleObj) {
    h.selector != ""
  }

  /** The test in the loop of remove, with AskedIsTest for its regular expression. */
  predicate Asked(r: Request, h: HandleObj) {
    && (r.mapped || r.origType == h.origType)
    && (r.guid.None? || r.guid.value == h.guid)
    && multiset(r.namespaces) <= multiset(h.namespaces)
    && (r.selector == "" || r.selector == h.selector || (r.selector == "**" && IsDelegated(h)))
  }

  /** The regular expression that the source builds from names asked for, tested on the joined names of a handler. */
  ghost predicate NamesTest(asked: Namespaces.AskedNames, own: Namespaces.OwnNames)
    requires asked != []
  {
    Namespaces.NamespaceFilter(asked, own);
    Namespaces.Test(Namespaces.Pattern(Namespaces.Sort(asked)), Namespaces.Join(Namespaces.Sort(own)))
  }

  /** The condition of the source, with its regular expression. */
  lemma AskedIsTest(r: Request, h: HandleObj)
    ensures Asked(r, h) <==>
      && (r.mapped || r.origType == h.origType)
      && (r.guid.None? || r.guid.value == h.guid)
      && (r.namespaces == [] || NamesTest(r.namespaces, h.namespaces))
      && (r.selector == "" || r.selector == h.selector || (r.selector == "**" && h.selector != ""))
  {
    if r.namespaces != [] { Namespaces.NamespaceFilter(r.namespaces, h.namespaces); }
  }

  // ----- specification: what has been registered and not removed -----

  datatype Op = Add(to: string, h: HandleObj) | Remove(from: string, request: Request)

  function Keep(hs: seq<HandleObj>, r: Request): seq<HandleObj> {
    Filter(hs, h => !Asked(r, h))
  }

  /** The handlers of one event type after the operations, in the order of their registration. */
  function Registered(ops: seq<Op>, event: string): seq<HandleObj> {
    if ops == [] then []
    else
      Updated(Registered(ops[..|ops| - 1], event), ops[|ops| - 1], event)
  }

  function Updated(before: seq<HandleObj>, op: Op, event: string): seq<HandleObj> {
    match op
    case Add(to, h) => if to == event then before + [h] else before
    case Remove(from, r) => if from == event then Keep(before, r) else before
  }

  /** The delegated ones (or the direct ones) among hs, in order. */
  function Group(hs: seq<HandleObj>, delegated: bool): seq<HandleObj> {
    Filter(hs, h => IsDelegated(h) == delegated)
  }

  /** Delegated handlers first, each group in the order of registration. */
  function Laid(hs: seq<HandleObj>): seq<HandleObj> {
    Group(hs, true) + Group(hs, false)
  }

  lemma GroupAppend(hs: seq<HandleObj>, h: HandleObj, delegated: bool)
    ensures Group(hs + [h], delegated) == Group(hs, delegated) + if IsDelegated(h) == delegated then [h] else []
  {
    FilterConcat(hs, [h], x => IsDelegated(x) == delegated);
    assert Group(hs + [h], delegated) == Group(hs, delegated) + Group([h], delegated);
    assert [h][1..] == [];
  }

  /** What add does to a laid-out list. */
  lemma LaidAppend(hs: seq<HandleObj>, h: HandleObj)
    ensures var list, count := Laid(hs), |Group(hs, true)|;
      Laid(hs + [h]) == if IsDelegated(h) then list[..count] + [h] + list[count..] else list + [h]
    ensures |Group(hs + [h], true)| == |Group(hs, true)| + if IsDelegated(h) then 1 else 0
  {
    GroupAppend(hs, h, true);
    GroupAppend(hs, h, false);
  }

  /** What remove does to a laid-out list. */
  lemma LaidKeep(hs: seq<HandleObj>, r: Request)
    ensures var list, count := Laid(hs), |Group(hs, true)|;
      Keep(list, r) == Laid(Keep(hs, r)) && |Keep(list[..count], r)| == |Group(Keep(hs, r), true)|
  {
    var d, n := Group(hs, true), Group(hs, false);
    KeepConcat(d, n, r);
    GroupKeep(hs, r, true);
    GroupKeep(hs, r, false);
    assert (d + n)[..|d|] == d;
  }

  lemma GroupKeep(hs: seq<HandleObj>, r: Request, delegated: bool)
    ensures Group(Keep(hs, r), delegated) == Keep(Group(hs, delegated), r)
  {
    FilterCommutes(hs, h => !Asked(r, h), h => IsDelegated(h) == delegated);
  }

  lemma KeepConcat(a: seq<HandleObj>, b: seq<HandleObj>, r: Request)
    ensures Keep(a + b, r) == Keep(a, r) + Keep(b, r)
  {
    FilterConcat(a, b, h => !Asked(r, h));
  }

  lemma KeepOne(h: HandleObj, r: Request)
    ensures Keep([h], r) == if Asked(r, h) then [] else [h]
  {
    FilterCons(h, [], x => !Asked(r, x));
    assert [h] + [] == [h];
  }

  lemma {:induction false} LaidLength(hs: seq<HandleObj>)
    ensures |Laid(hs)| == |hs|
  {
    if hs != [] {
      LaidLength(hs[..|hs| - 1]);
      LaidAppend(hs[..|hs| - 1], hs[|hs| - 1]);
      assert hs == hs[..|hs| - 1] + [hs[|hs| - 1]];
    }
  }

  /** In a laid-out list, the first handlers are the delegated ones. */
  lemma LaidGroups(hs: seq<HandleObj>)
    ensures var list, count := Laid(hs), |Group(hs, true)|;
      count <= |list| && forall k :: 0 <= k < |list| ==> (k < count <==> IsDelegated(list[k]))
  {
    var d, n := Group(hs, true), Group(hs, false);
    forall k | 0 <= k < |d + n| ensures k < |d| <==> IsDelegated((d + n)[k]) {
      if k < |d| { FilterMember(hs, h => IsDelegated(h) == true, d[k]); }
      else { FilterMember(hs, h => IsDelegated(h) == false, n[k - |d|]); }
    }
  }

  // ----- the same, read off the operations: added and never asked for afterwards -----

  predicate AskedLater(ops: seq<Op>, event: string, h: HandleObj) {
    exists k :: 0 <= k < |ops| && ops[k].Remove? && ops[k].from == event && Asked(ops[k].request, h)
  }

  function Surviving(ops: seq<Op>, event: string): seq<HandleObj> {
    if ops == [] then []
    else
      Head(ops[0], ops[1..], event) + Surviving(ops[1..], event)
  }

  function Head(op: Op, later: seq<Op>, event: string): seq<HandleObj> {
    if op.Add? && op.to == event && !AskedLater(later, event, op.h) then [op.h] else []
  }

  lemma AskedLaterAppend(ops: seq<Op>, op: Op, event: string, h: HandleObj)
    ensures AskedLater(ops + [op], event, h) <==>
      AskedLater(ops, event, h) || (op.Remove? && op.from == event && Asked(op.request, h))
  {
    var all := ops + [op];
    if AskedLater(ops, event, h) {
      var k :| 0 <= k < |ops| && ops[k].Remove? && ops[k].from == event && Asked(ops[k].request, h);
      assert all[k] == ops[k];
    }
    if op.Remove? && op.from == event && Asked(op.request, h) { assert all[|ops|] == op; }
  }

  lemma {:induction false} SurvivingAppend(ops: seq<Op>, op: Op, event: string)
    ensures Surviving(ops + [op], event) == Updated(Surviving(ops, event), op, event)
  {
    hide Asked, AskedLater;
    if ops == [] {
      assert ops + [op] == [op] && [op][1..] == [];
      if op.Remove? { KeepNothing(op.request); }
      if op.Add? { assert !AskedLater([], event, op.h) by { NothingAsked(event, op.h); } }
    } else {
      var rest := ops[1..];
      assert (ops + [op])[1..] == rest + [op];
      SurvivingAppend(rest, op, event);
      var head := Head(ops[0], rest, event);
      assert Surviving(ops, event) == head + Surviving(rest, event);
      assert Surviving(ops + [op], event) == Head(ops[0], rest + [op], event) + Surviving(rest + [op], event);
      HeadAppend(ops[0], rest, op, event);
      if op.Remove? && op.from == event { KeepConcat(head, Surviving(rest, event), op.request); }
      else if op.Add? && op.to == event {
        assert head + (Surviving(rest, event) + [op.h]) == (head + Surviving(rest, event)) + [op.h];
      }
    }
  }

  lemma HeadAppend(first: Op, rest: seq<Op>, op: Op, event: string)
    ensures Head(first, rest + [op], event) ==
      if op.Remove? && op.from == event then Keep(Head(first, rest, event), op.request) else Head(first, rest, event)
  {
    hide Asked, AskedLater;
    if first.Add? { AskedLaterAppend(rest, op, event, first.h); }
    if op.Remove? {
      KeepNothing(op.request);
      if first.Add? { KeepOne(first.h, op.request); }
    }
  }

  lemma NothingAsked(event: string, h: HandleObj)
    ensures !AskedLater([], event, h)
  {
  }

  lemma KeepNothing(r: Request)
    ensures Keep([], r) == []
  {
  }

  /** The registered handlers are those added and not asked for by any later remove, in the order they were added. */
  lemma {:induction false} RegisteredIsSurviving(ops: seq<Op>, event: string)
    ensures Registered(ops, event) == Surviving(ops, event)
  {
    if ops != [] {
      var n := |ops| - 1;
      RegisteredIsSurviving(ops[..n], event);
      SurvivingAppend(ops[..n], ops[n], event);
      assert ops == ops[..n] + [ops[n]];
    }
  }

  // ----- the lists -----

  /** An array of handlers with its delegateCount property. */
  datatype HandlerList = HandlerList(list: seq<HandleObj>, delegateCount: nat)

  /** An event type has a list exactly when handlers are registered for it; the list is laid out by groups. */
  ghost predicate Kept(handlers: map<string, HandlerList>, log: seq<Op>, event: string) {
    var hs := Registered(log, event);
    if event in handlers then hs != [] && handlers[event] == HandlerList(Laid(hs), |Group(hs, true)|)
    else hs == []
  }

  /** The list after add, and after remove. */
  lemma KeptAfter(handlers: map<string, HandlerList>, log: seq<Op>, op: Op, now: map<string, HandlerList>, event: string)
    requires forall other: string :: Kept(handlers, log, other)
    requires forall other: string :: other != event ==> (other in now <==> other in handlers)
    requires forall other: string :: other != event && other in now ==> now[other] == handlers[other]
    requires event == if op.Add? then op.to else op.from
    requires var hs := Updated(Registered(log, event), op, event);
      if event in now then hs != [] && now[event] == HandlerList(Laid(hs), |Group(hs, true)|) else hs == []
    ensures forall other: string :: Kept(now, log + [op], other)
  {
    hide Laid, Group, Registered;
    Appended(log, op);
    forall other: string ensures Kept(now, log + [op], other) {
      assert Kept(handlers, log, other);
    }
  }

  class ElementEvents {
    var handlers: map<string, HandlerList>
    ghost var log: seq<Op>

    ghost predicate Valid()
      reads this
    {
      forall event: string :: Kept(handlers, log, event)
    }

    constructor ()
      ensures Valid() && log == []
    {
      handlers := map[];
      log := [];
    }

    /** The end of event.add, for one type (already mapped by the special events). */
    method Add(event: string, h: HandleObj)
      requires Valid()
      modifies this
      ensures Valid() && log == old(log) + [Op.Add(event, h)]
    {
      ghost var hs, was := Registered(log, event), handlers;
      assert Kept(handlers, log, event);
      hide Laid, Group, Registered, IsDelegated;
      LaidAppend(hs, h);
      assert |Group(hs, true)| <= |Laid(hs)| by { LaidGroups(hs); }
      assert event !in handlers ==> Laid(hs) == [] && |Group(hs, true)| == 0 by { NothingLaid(); }
      var list, count := [], 0;
      if event in handlers { list, count := handlers[event].list, handlers[event].delegateCount; }
      if IsDelegated(h) {
        list, count := list[..count] + [h] + list[count..], count + 1;
      } else {
        list := list + [h];
      }
      handlers := handlers[event := HandlerList(list, count)];
      KeptAfter(was, log, Op.Add(event, h), handlers, event);
      log := log + [Op.Add(event, h)];
    }

    /** The loop of event.remove for one type (already mapped). */
    method Remove(event: string, r: Request)
      requires Valid()
      modifies this
      ensures Valid() && log == old(log) + [Op.Remove(event, r)]
    {
      ghost var hs, was := Registered(log, event), handlers;
      assert Kept(handlers, log, event);
      hide Laid, Group, Registered, IsDelegated, Keep;
      LaidGroups(hs);
      LaidKeep(hs, r);
      LaidLength(Keep(hs, r));
      KeepNothing(r);
      if event in handlers {
        var list, count := SpliceAsked(handlers[event].list, handlers[event].delegateCount, r);
        handlers := if |list| == 0 then handlers - {event} else handlers[event := HandlerList(list, count)];
      }
      KeptAfter(was, log, Op.Remove(event, r), handlers, event);
      log := log + [Op.Remove(event, r)];
    }

    /** event.remove without a type: the request goes to every type that has handlers. */
    method RemoveEverywhere(request: Request)
      requires Valid()
      modifies this
      ensures Valid()
      ensures forall event: string :: Registered(log, event) == Keep(Registered(old(log), event), request.(mapped := true))
    {
      var r := request.(mapped := true);
      var events := handlers.Keys;
      ghost var ops := log;
      hide Registered, Keep;
      KeepNothing(r);
      assert forall event: string :: event !in events ==> Kept(handlers, log, event);
      while events != {}
        invariant Valid()
        invariant forall event: string :: event in events ==> Registered(log, event) == Registered(ops, event)
        invariant forall event: string :: event !in events ==> Registered(log, event) == Keep(Registered(ops, event), r)
        decreases |events|
      {
        var event :| event in events;
        Appended(log, Op.Remove(event, r));
        Remove(event, r);
        events := events - {event};
      }
    }
  }

  lemma NothingLaid()
    ensures Laid([]) == [] && Group([], true) == []
  {
  }

  lemma Appended(ops: seq<Op>, op: Op)
    ensures forall event: string :: Registered(ops + [op], event) == Updated(Registered(ops, event), op, event)
  {
    assert (ops + [op])[..|ops|] == ops;
  }

  /** Splicing while indexing: for ( j = 0; j < length; j++ ) if asked splice( j--, 1 ). */
  method SpliceAsked(list: seq<HandleObj>, count: nat, r: Request) returns (rest: seq<HandleObj>, left: nat)
    requires count <= |list| && forall k :: 0 <= k < |list| ==> (k < count <==> IsDelegated(list[k]))
    ensures rest == Keep(list, r) && left == |Keep(list[..count], r)|
  {
    hide Keep, IsDelegated, Asked;
    rest, left := list, count;
    var j := 0;
    ghost var seen := 0;
    KeepNothing(r);
    while j < |rest|
      invariant j <= |rest| && seen <= |list|
      invariant rest[j..] == list[seen..] && rest[..j] == Keep(list[..seen], r)
      invariant left == |Keep(list[..Least(seen, count)], r)| + count - Least(seen, count)
      decreases |rest| - j
    {
      var h := rest[j];
      SpliceStep(list, seen, count, r, rest, j);
      if Asked(r, h) {
        rest := rest[..j] + rest[j + 1..];
        if IsDelegated(h) { left := left - 1; }
        j := j - 1;
      }
      j := j + 1;
      seen := seen + 1;
    }
    assert list[..seen] == list && rest[..j] == rest;
  }

  function Least(a: nat, b: nat): nat {
    if a < b then a else b
  }

  lemma SpliceStep(list: seq<HandleObj>, seen: nat, count: nat, r: Request, rest: seq<HandleObj>, j: nat)
    requires j < |rest| && seen <= |list| && rest[j..] == list[seen..] && count <= |list|
    ensures seen < |list| && rest[j] == list[seen]
    ensures rest[j + 1..] == list[seen + 1..]
    ensures rest[..j + 1] == rest[..j] + [rest[j]]
    ensures Keep(list[..seen + 1], r) == Keep(list[..seen], r) + if Asked(r, list[seen]) then [] else [list[seen]]
  {
    hide Keep, Asked;
    assert rest[j..][0] == list[seen];
    assert rest[j + 1..] == rest[j..][1..];
    assert list[..seen + 1] == list[..seen] + [list[seen]];
    KeepConcat(list[..seen], [list[seen]], r);
    KeepOne(list[seen], r);
  }
}
