/** jQuery.event.dispatch: which handlers run, on which element, and where a stopped event cuts them off. */
module Dispatch {
  import opened Prelude
  import opened DocumentOrder
  import opened Events
  import Namespaces

  datatype Event = Event(kind: string, target: nat, button: bool, exclusive: bool, namespaces: Namespaces.AskedNames)

  /** What the page says about elements: which are disabled, and which selectors they match within the delegating one. */
  datatype Page = Page(dom: Links, disabled: set<nat>, fits: (nat, string) -> bool)

  datatype Returned = Nothing | False | Other

  /** What a handler does: its return value, and whether it calls preventDefault, stopPropagation or stopImmediatePropagation. */
  datatype Effect = Effect(ret: Returned, prevent: bool, stop: bool, stopNow: bool)

  datatype Run = Run(elem: nat, h: HandleObj)

  /** An entry of handlerQueue. */
  datatype Matched = Matched(elem: nat, matches: seq<HandleObj>)

  // ----- specification: the queue -----

  /** The ancestors from the end of a chain outward, up to but not including self. */
  function Outward(chain: seq<nat>, self: nat): seq<nat> {
    if chain == [] || chain[|chain| - 1] == self then []
    else [chain[|chain| - 1]] + Outward(chain[..|chain| - 1], self)
  }

  function MatchingAt(page: Page, cur: nat, delegates: seq<HandleObj>): seq<HandleObj> {
    Filter(delegates, (h: HandleObj) => page.fits(cur, h.selector))
  }

  predicate Skipped(page: Page, ev: Event, cur: nat) {
    cur in page.disabled && ev.kind == "click"
  }

  function DelegateGroups(page: Page, ev: Event, path: seq<nat>, delegates: seq<HandleObj>): seq<Matched> {
    if path == [] then []
    else
      var ms := MatchingAt(page, path[0], delegates);
      (if Skipped(page, ev, path[0]) || ms == [] then [] else [Matched(path[0], ms)])
      + DelegateGroups(page, ev, path[1..], delegates)
  }

  /** Matching delegates from the target outward, then the direct handlers. */
  function Queue(page: Page, ev: Event, self: nat, path: seq<nat>, hs: seq<HandleObj>): seq<Matched> {
    (if ev.button && ev.kind == "click" then [] else DelegateGroups(page, ev, path, Group(hs, true)))
    + if Group(hs, false) == [] then [] else [Matched(self, Group(hs, false))]
  }

  // ----- specification: the cut -----

  predicate Eligible(ev: Event, h: HandleObj) {
    || (!ev.exclusive && ev.namespaces == [])
    || (ev.namespaces == [] && h.namespaces == [])
    || (ev.namespaces != [] && multiset(ev.namespaces) <= multiset(h.namespaces))
  }

  /** The condition of the source, with its regular expression. */
  lemma EligibleIsTest(ev: Event, h: HandleObj)
    ensures Eligible(ev, h) <==>
      || (!ev.exclusive && ev.namespaces == [])
      || (ev.namespaces == [] && h.namespaces == [])
      || (ev.namespaces != [] && NamesTest(ev.namespaces, h.namespaces))
  {
    if ev.namespaces != [] { Namespaces.NamespaceFilter(ev.namespaces, h.namespaces); }
  }

  /** A run that would take place if nothing were stopped, with the number of its queue entry. */
  datatype Due = Due(group: nat, run: Run)

  function DueOf(ev: Event, g: nat, elem: nat, hs: seq<HandleObj>): seq<Due> {
    if hs == [] then []
    else (if Eligible(ev, hs[0]) then [Due(g, Run(elem, hs[0]))] else []) + DueOf(ev, g, elem, hs[1..])
  }

  function DueFrom(ev: Event, queue: seq<Matched>, g: nat): (r: seq<Due>)
    requires g <= |queue|
    ensures forall k :: 0 <= k < |r| ==> r[k].group >= g
    decreases |queue| - g
  {
    if g == |queue| then []
    else
      DueGroups(ev, g, queue[g].elem, queue[g].matches);
      DueOf(ev, g, queue[g].elem, queue[g].matches) + DueFrom(ev, queue, g + 1)
  }

  lemma DueGroups(ev: Event, g: nat, elem: nat, hs: seq<HandleObj>)
    ensures forall k :: 0 <= k < |DueOf(ev, g, elem, hs)| ==> DueOf(ev, g, elem, hs)[k].group == g
  {
  }

  function Runs(due: seq<Due>): (r: seq<Run>)
    ensures |r| == |due|
  {
    if due == [] then [] else Runs(due[..|due| - 1]) + [due[|due| - 1].run]
  }

  type Act = (seq<Run>, Run) -> Effect

  /** What the k-th run does, given that all runs before it took place. */
  function EffectAt(due: seq<Due>, act: Act, k: nat): Effect
    requires k < |due|
  {
    act(Runs(due[..k]), due[k].run)
  }

  predicate StopsNow(due: seq<Due>, act: Act, k: nat)
    requires k < |due|
  {
    EffectAt(due, act, k).stopNow
  }

  /** stopPropagation, stopImmediatePropagation or a false return */
  predicate Stops(due: seq<Due>, act: Act, k: nat)
    requires k < |due|
  {
    var e := EffectAt(due, act, k); e.stop || e.stopNow || e.ret == False
  }

  /** Run m is cut off: an earlier run stopped everything, or one on an inner element stopped the propagation. */
  ghost predicate Barred(due: seq<Due>, act: Act, m: nat)
    requires m < |due|
  {
    exists k: nat :: k < m && (StopsNow(due, act, k) || (Stops(due, act, k) && due[k].group < due[m].group))
  }

  /** The first n runs take place and no others. */
  ghost predicate CutAt(due: seq<Due>, act: Act, n: nat) {
    && n <= |due| && (forall m: nat :: m < n ==> !Barred(due, act, m))
    && (n < |due| ==> Barred(due, act, n))
  }

  /** There is one such n. */
  lemma CutIsUnique(due: seq<Due>, act: Act, m: nat, n: nat)
    requires CutAt(due, act, m) && CutAt(due, act, n)
    ensures m == n
  {
  }

  predicate Prevents(e: Effect) {
    e.prevent || e.ret == False
  }

  /** The first n runs took place, and prevented says whether one of them called preventDefault or returned false. */
  ghost predicate Carried(due: seq<Due>, act: Act, n: nat, trace: seq<Run>, prevented: bool) {
    && CutAt(due, act, n) && trace == Runs(due[..n])
    && (prevented <==> exists k: nat :: k < n && Prevents(EffectAt(due, act, k)))
  }

  // ----- the loops over the queue -----

  /** pos runs have taken place, the last ones on group g; flags and trace agree with them. */
  ghost predicate Ran(due: seq<Due>, act: Act, pos: nat, g: nat, trace: seq<Run>, stopped: bool, stoppedNow: bool, prevented: bool) {
    && pos <= |due| && trace == Runs(due[..pos])
    && (forall m: nat :: m < pos ==> !Barred(due, act, m))
    && (forall k: nat :: k < pos && Stops(due, act, k) ==> stopped && due[k].group == g)
    && (forall k: nat :: k < pos && StopsNow(due, act, k) ==> stoppedNow)
    && (stopped ==> exists k: nat :: k < pos && Stops(due, act, k))
    && (stoppedNow ==> stopped && exists k: nat :: k < pos && StopsNow(due, act, k))
    && (prevented <==> exists k: nat :: k < pos && Prevents(EffectAt(due, act, k)))
  }

  lemma RanOn(due: seq<Due>, act: Act, pos: nat, g: nat, trace: seq<Run>, stopped: bool, prevented: bool)
    requires Ran(due, act, pos, g, trace, stopped, false, prevented) && pos < |due| && due[pos].group == g
    ensures var e := act(trace, due[pos].run);
      Ran(due, act, pos + 1, g, trace + [due[pos].run],
        stopped || e.stop || e.stopNow || e.ret == False, e.stopNow, prevented || Prevents(e))
  {
    assert due[..pos + 1][..pos] == due[..pos];
    assert !Barred(due, act, pos);
    var e := act(trace, due[pos].run);
    assert EffectAt(due, act, pos) == e;
    assert Stops(due, act, pos) <==> e.stop || e.stopNow || e.ret == False;
    assert StopsNow(due, act, pos) <==> e.stopNow;
  }

  /** The inner loop: the handlers of one queue entry. */
  method RunGroup(ev: Event, g: nat, elem: nat, matches: seq<HandleObj>, act: Act, trace: seq<Run>, prevented: bool,
      ghost due: seq<Due>, ghost n: nat, ghost rest: seq<Due>)
    returns (trace2: seq<Run>, stopped: bool, stoppedNow: bool, prevented2: bool)
    requires Ran(due, act, n, g, trace, false, false, prevented) && due[n..] == DueOf(ev, g, elem, matches) + rest
    ensures Ran(due, act, |trace2|, g, trace2, stopped, stoppedNow, prevented2)
    ensures !stoppedNow ==> |trace2| <= |due| && due[|trace2|..] == rest
  {
    ghost var n2: nat := n;
    trace2, prevented2 := trace, prevented;
    stopped, stoppedNow := false, false;
    hide Ran, Eligible;
    var j := 0;
    RanFlags(due, act, n, g, trace, false, false, prevented);
    assert matches[0..] == matches;
    while j < |matches| && !stoppedNow
      invariant j <= |matches| && n2 <= |due|
      invariant Ran(due, act, n2, g, trace2, stopped, stoppedNow, prevented2)
      invariant !stoppedNow ==> due[n2..] == DueOf(ev, g, elem, matches[j..]) + rest
    {
      var h := matches[j];
      assert matches[j..][0] == h && matches[j..][1..] == matches[j + 1..];
      if Eligible(ev, h) {
        var run := Run(elem, h);
        assert due[n2] == due[n2..][0] == Due(g, run);
        RanOn(due, act, n2, g, trace2, stopped, prevented2);
        var e := act(trace2, run);
        trace2 := trace2 + [run];
        n2 := n2 + 1;
        if e.prevent { prevented2 := true; }
        if e.ret == False { prevented2 := true; }
        stopped := stopped || e.stop || e.stopNow || e.ret == False;
        stoppedNow := e.stopNow;
      }
      j := j + 1;
    }
    RanFlags(due, act, n2, g, trace2, stopped, stoppedNow, prevented2);
  }

  /** With nothing stopped the next queue entry may go on. */
  lemma RanNext(due: seq<Due>, act: Act, pos: nat, g: nat, h: nat, trace: seq<Run>, prevented: bool)
    requires Ran(due, act, pos, g, trace, false, false, prevented)
    ensures Ran(due, act, pos, h, trace, false, false, prevented)
  {
  }

  /** At the end of the loops the runs so far are the cut. */
  lemma RanIsCut(due: seq<Due>, act: Act, pos: nat, g: nat, trace: seq<Run>, stopped: bool, stoppedNow: bool, prevented: bool)
    requires Ran(due, act, pos, g, trace, stopped, stoppedNow, prevented)
    requires !stopped ==> pos == |due|
    requires stopped && !stoppedNow ==> forall k :: pos <= k < |due| ==> due[k].group > g
    ensures Carried(due, act, pos, trace, prevented)
  {
  }

  /** Between queue entries: i of them are done. */
  ghost predicate Between(ev: Event, queue: seq<Matched>, act: Act, i: nat, n: nat, trace: seq<Run>,
      stopped: bool, stoppedNow: bool, prevented: bool)
  {
    var due := DueFrom(ev, queue, 0);
    && i <= |queue| && n <= |due|
    && (!stoppedNow ==> due[n..] == DueFrom(ev, queue, i))
    && exists g: nat :: (stopped ==> g < i) && Ran(due, act, n, g, trace, stopped, stoppedNow, prevented)
  }

  lemma EnterGroup(ev: Event, queue: seq<Matched>, act: Act, i: nat, n: nat, trace: seq<Run>, stoppedNow: bool, prevented: bool)
    requires Between(ev, queue, act, i, n, trace, false, stoppedNow, prevented) && i < |queue|
    ensures var due := DueFrom(ev, queue, 0);
      && !stoppedNow && n <= |due| && Ran(due, act, n, i, trace, false, false, prevented)
      && due[n..] == DueOf(ev, i, queue[i].elem, queue[i].matches) + DueFrom(ev, queue, i + 1)
  {
    var due := DueFrom(ev, queue, 0);
    hide Ran, DueFrom, DueOf;
    var g: nat :| Ran(due, act, n, g, trace, false, stoppedNow, prevented);
    RanFlags(due, act, n, g, trace, false, stoppedNow, prevented);
    RanNext(due, act, n, g, i, trace, prevented);
    DueStep(ev, queue, i);
  }

  lemma LeaveGroup(ev: Event, queue: seq<Matched>, act: Act, i: nat, n: nat, trace: seq<Run>,
      stopped: bool, stoppedNow: bool, prevented: bool)
    requires i < |queue| && n <= |DueFrom(ev, queue, 0)|
    requires var due := DueFrom(ev, queue, 0);
      Ran(due, act, n, i, trace, stopped, stoppedNow, prevented) && (!stoppedNow ==> due[n..] == DueFrom(ev, queue, i + 1))
    ensures Between(ev, queue, act, i + 1, n, trace, stopped, stoppedNow, prevented)
  {
  }

  lemma EndOfQueue(ev: Event, queue: seq<Matched>, act: Act, i: nat, n: nat, trace: seq<Run>,
      stopped: bool, stoppedNow: bool, prevented: bool)
    requires Between(ev, queue, act, i, n, trace, stopped, stoppedNow, prevented) && (i == |queue| || stopped)
    ensures Carried(DueFrom(ev, queue, 0), act, n, trace, prevented)
  {
    var due := DueFrom(ev, queue, 0);
    hide Ran, DueFrom, DueOf, Carried;
    var g: nat :| (stopped ==> g < i) && Ran(due, act, n, g, trace, stopped, stoppedNow, prevented);
    RanFlags(due, act, n, g, trace, stopped, stoppedNow, prevented);
    if !stoppedNow { LaterGroups(ev, queue, i, due, n); }
    RanIsCut(due, act, n, g, trace, stopped, stoppedNow, prevented);
  }

  /** The loops that run the queue. */
  method RunQueue(ev: Event, queue: seq<Matched>, act: Act) returns (trace: seq<Run>, prevented: bool)
    ensures Carried(DueFrom(ev, queue, 0), act, |trace|, trace, prevented)
  {
    trace, prevented := [], false;
    ghost var n: nat := 0;
    var stopped, stoppedNow := false, false;
    var i := 0;
    RanStart(DueFrom(ev, queue, 0), act);
    assert Between(ev, queue, act, 0, 0, [], false, false, false);
    hide Ran, Carried, DueFrom, DueOf, Between;
    while i < |queue| && !stopped
      invariant i <= |queue| && Between(ev, queue, act, i, n, trace, stopped, stoppedNow, prevented)
    {
      var matched := queue[i];
      EnterGroup(ev, queue, act, i, n, trace, stoppedNow, prevented);
      trace, stopped, stoppedNow, prevented := RunGroup(ev, i, matched.elem, matched.matches, act, trace, prevented,
        DueFrom(ev, queue, 0), n, DueFrom(ev, queue, i + 1));
      n := |trace|;
      RanFlags(DueFrom(ev, queue, 0), act, n, i, trace, stopped, stoppedNow, prevented);
      LeaveGroup(ev, queue, act, i, n, trace, stopped, stoppedNow, prevented);
      i := i + 1;
    }
    EndOfQueue(ev, queue, act, i, n, trace, stopped, stoppedNow, prevented);
    CarriedLength(DueFrom(ev, queue, 0), act, n, trace, prevented);
  }

  lemma CarriedLength(due: seq<Due>, act: Act, n: nat, trace: seq<Run>, prevented: bool)
    requires Carried(due, act, n, trace, prevented)
    ensures n == |trace|
  {
  }

  lemma RanStart(due: seq<Due>, act: Act)
    ensures Ran(due, act, 0, 0, [], false, false, false)
  {
    assert due[..0] == [];
  }

  lemma DueStep(ev: Event, queue: seq<Matched>, g: nat)
    requires g < |queue|
    ensures DueFrom(ev, queue, g) == DueOf(ev, g, queue[g].elem, queue[g].matches) + DueFrom(ev, queue, g + 1)
  {
  }

  lemma LaterGroups(ev: Event, queue: seq<Matched>, i: nat, due: seq<Due>, n: nat)
    requires i <= |queue| && n <= |due| && due[n..] == DueFrom(ev, queue, i)
    ensures forall k :: n <= k < |due| ==> due[k].group >= i
    ensures i == |queue| ==> n == |due|
  {
    forall k | n <= k < |due| ensures due[k].group >= i { assert due[k] == due[n..][k - n]; }
  }

  lemma RanFlags(due: seq<Due>, act: Act, pos: nat, g: nat, trace: seq<Run>, stopped: bool, stoppedNow: bool, prevented: bool)
    requires Ran(due, act, pos, g, trace, stopped, stoppedNow, prevented)
    ensures pos == |trace| <= |due| && (stoppedNow ==> stopped)
  {
  }

  // ----- building the queue -----

  /** One pass over the delegates at cur; selMatch remembers what each selector came to. */
  method MatchesAt(page: Page, cur: nat, delegates: seq<HandleObj>) returns (matches: seq<HandleObj>)
    ensures matches == MatchingAt(page, cur, delegates)
  {
    var selMatch: map<string, bool> := map[];
    matches := [];
    var i := 0;
    ghost var p := (h: HandleObj) => page.fits(cur, h.selector);
    while i < |delegates|
      invariant i <= |delegates| && matches == MatchingAt(page, cur, delegates[..i])
      invariant forall sel :: sel in selMatch ==> selMatch[sel] == page.fits(cur, sel)
    {
      var h := delegates[i];
      if h.selector !in selMatch { selMatch := selMatch[h.selector := page.fits(cur, h.selector)]; }
      MatchingAppend(page, cur, delegates, i);
      if selMatch[h.selector] { matches := matches + [h]; }
      i := i + 1;
    }
    assert delegates[..i] == delegates;
  }

  lemma MatchingAppend(page: Page, cur: nat, delegates: seq<HandleObj>, i: nat)
    requires i < |delegates|
    ensures MatchingAt(page, cur, delegates[..i + 1]) ==
      MatchingAt(page, cur, delegates[..i]) + if page.fits(cur, delegates[i].selector) then [delegates[i]] else []
  {
    assert delegates[..i + 1] == delegates[..i] + [delegates[i]];
    var p := (h: HandleObj) => page.fits(cur, h.selector);
    FilterConcat(delegates[..i], [delegates[i]], p);
    FilterCons(delegates[i], [], p);
    assert [delegates[i]] + [] == [delegates[i]];
    assert MatchingAt(page, cur, delegates[..i + 1]) ==
      MatchingAt(page, cur, delegates[..i]) + MatchingAt(page, cur, [delegates[i]]);
  }

  lemma {:induction false} GroupsAppend(page: Page, ev: Event, path: seq<nat>, cur: nat, delegates: seq<HandleObj>)
    ensures DelegateGroups(page, ev, path + [cur], delegates) ==
      var ms := MatchingAt(page, cur, delegates);
      DelegateGroups(page, ev, path, delegates) + if Skipped(page, ev, cur) || ms == [] then [] else [Matched(cur, ms)]
  {
    hide MatchingAt, Skipped;
    if path == [] {
      assert path + [cur] == [cur] && [cur][1..] == [];
    } else {
      assert (path + [cur])[1..] == path[1..] + [cur];
      GroupsAppend(page, ev, path[1..], cur, delegates);
    }
  }

  /** The delegates at one node, unless clicks are ignored there. */
  method VisitNode(page: Page, ev: Event, cur: nat, delegates: seq<HandleObj>, ghost walked: seq<nat>, queue: seq<Matched>)
    returns (queue2: seq<Matched>)
    requires queue == DelegateGroups(page, ev, walked, delegates)
    ensures queue2 == DelegateGroups(page, ev, walked + [cur], delegates)
  {
    hide MatchingAt, DelegateGroups;
    GroupsAppend(page, ev, walked, cur, delegates);
    queue2 := queue;
    if !Skipped(page, ev, cur) {
      var matches := MatchesAt(page, cur, delegates);
      if |matches| > 0 { queue2 := queue2 + [Matched(cur, matches)]; }
    }
  }

  /** The nodes walked so far, from the end of chain c down to position k. */
  ghost predicate Walked(c: seq<nat>, self: nat, k: nat, walked: seq<nat>) {
    k <= |c| && walked + Outward(c[..k], self) == Outward(c, self)
  }

  lemma WalkOn(c: seq<nat>, self: nat, k: nat, walked: seq<nat>)
    requires Walked(c, self, k, walked) && k > 0
    ensures c[k - 1] != self ==> Walked(c, self, k - 1, walked + [c[k - 1]])
    ensures c[k - 1] == self ==> walked == Outward(c, self)
  {
    if c[k - 1] != self { OutwardStep(c, k, self); }
  }

  /** The walk from the target outward. */
  method DelegatedQueue(page: Page, ev: Event, self: nat, delegates: seq<HandleObj>, ghost t: Tree) returns (queue: seq<Matched>)
    requires Document(page.dom, t) && ev.target in Preorder(t)
    ensures queue == DelegateGroups(page, ev, Outward(Chain(t, ev.target), self), delegates)
  {
    ghost var c := Chain(t, ev.target);
    ghost var k: nat := |c|;
    ghost var walked: seq<nat> := [];
    queue := [];
    var cur := Some(ev.target);
    assert Walked(c, self, k, []) by { assert c[..|c|] == c; }
    NoGroups(page, ev, delegates);
    hide Document, Chain, Preorder, DelegateGroups, Walked, Outward;
    while cur.Some? && cur.value != self
      invariant k <= |c| && cur == if k > 0 then Some(c[k - 1]) else None
      invariant Walked(c, self, k, walked)
      invariant queue == DelegateGroups(page, ev, walked, delegates)
      decreases k
    {
      queue := VisitNode(page, ev, cur.value, delegates, walked, queue);
      WalkOn(c, self, k, walked);
      walked := walked + [cur.value];
      ParentAt(page.dom, t, ev.target, k - 1);
      cur := ParentOf(page.dom, cur.value);
      k := k - 1;
    }
    WalkDone(c, self, k, walked);
  }

  lemma WalkDone(c: seq<nat>, self: nat, k: nat, walked: seq<nat>)
    requires Walked(c, self, k, walked) && (k > 0 ==> c[k - 1] == self)
    ensures walked == Outward(c, self)
  {
    if k > 0 { WalkOn(c, self, k, walked); }
  }

  lemma NoGroups(page: Page, ev: Event, delegates: seq<HandleObj>)
    ensures DelegateGroups(page, ev, [], delegates) == []
  {
  }

  lemma OutwardStep(c: seq<nat>, k: nat, self: nat)
    requires 0 < k <= |c| && c[k - 1] != self
    ensures Outward(c[..k], self) == [c[k - 1]] + Outward(c[..k - 1], self)
  {
    assert c[..k][..k - 1] == c[..k - 1];
  }

  // ----- which runs are due, and in which order, without any queue -----

  /** A due run: handler k, on the element at position i of the target's chain, or directly on the element itself. */
  datatype Key = Key(delegated: bool, i: nat, k: nat)

  /** Position i is reached: self is not there nor further in, and it does not ignore clicks. */
  predicate Reached(page: Page, ev: Event, self: nat, c: seq<nat>, i: nat) {
    && i < |c| && (forall j :: i <= j < |c| ==> c[j] != self)
    && !(c[i] in page.disabled && ev.kind == "click") && !(ev.button && ev.kind == "click")
  }

  /** The handlers that are to run: those that the event is meant for, directly or on an element that fits. */
  predicate IsDue(page: Page, ev: Event, self: nat, c: seq<nat>, hs: seq<HandleObj>, key: Key) {
    && key.k < |hs| && Eligible(ev, hs[key.k]) && IsDelegated(hs[key.k]) == key.delegated
    && if key.delegated then Reached(page, ev, self, c, key.i) && page.fits(c[key.i], hs[key.k].selector) else key.i == 0
  }

  function RunAt(self: nat, c: seq<nat>, hs: seq<HandleObj>, key: Key): Run
    requires key.k < |hs| && (key.delegated ==> key.i < |c|)
  {
    Run(if key.delegated then c[key.i] else self, hs[key.k])
  }

  predicate SameElement(a: Key, b: Key) {
    a.delegated == b.delegated && a.i == b.i
  }

  /** Delegated handlers first, from the target outward, and on one element in the order of registration. */
  predicate Precedes(a: Key, b: Key) {
    if a.delegated != b.delegated then a.delegated
    else if a.i != b.i then a.i > b.i
    else a.k < b.k
  }

  /** All due runs, each once, in order. */
  ghost predicate InOrder(page: Page, ev: Event, self: nat, c: seq<nat>, hs: seq<HandleObj>, keys: seq<Key>) {
    && (forall m :: 0 <= m < |keys| ==> IsDue(page, ev, self, c, hs, keys[m]))
    && (forall m, n :: 0 <= m < n < |keys| ==> Precedes(keys[m], keys[n]))
    && (forall key :: IsDue(page, ev, self, c, hs, key) ==> key in keys)
  }

  /** After a handler run with effect e on key a, key b does not run any more. */
  predicate StopsBefore(e: Effect, a: Key, b: Key) {
    e.stopNow || ((e.stop || e.ret == False) && !SameElement(a, b))
  }

  /**
   The trace of a dispatch: the due runs in order, up to the one that is cut off. After
   a handler that called stopImmediatePropagation nothing runs; after one that called
   stopPropagation or returned false only handlers of the same element do.
   */
  ghost predicate Dispatched(page: Page, ev: Event, self: nat, c: seq<nat>, hs: seq<HandleObj>, act: Act,
      keys: seq<Key>, trace: seq<Run>, prevented: bool)
  {
    && InOrder(page, ev, self, c, hs, keys) && |trace| <= |keys|
    && (forall p :: 0 <= p < |trace| ==> trace[p] == RunAt(self, c, hs, keys[p]))
    && (forall p, q :: 0 <= p < q < |trace| ==> !StopsBefore(act(trace[..p], trace[p]), keys[p], keys[q]))
    && (|trace| < |keys| ==> exists p :: 0 <= p < |trace| && StopsBefore(act(trace[..p], trace[p]), keys[p], keys[|trace|]))
    && (prevented <==> exists p :: 0 <= p < |trace| && Prevents(act(trace[..p], trace[p])))
  }

  // ----- the queue has exactly these -----

  /** The keys of the handlers from k on that are due on the element at position i. */
  function KeysAt(page: Page, ev: Event, hs: seq<HandleObj>, x: nat, i: nat, k: nat): seq<Key>
    requires k <= |hs|
    decreases |hs| - k
  {
    if k == |hs| then []
    else
      (if IsDelegated(hs[k]) && page.fits(x, hs[k].selector) && Eligible(ev, hs[k]) then [Key(true, i, k)] else [])
      + KeysAt(page, ev, hs, x, i, k + 1)
  }

  function DirectKeys(ev: Event, hs: seq<HandleObj>, k: nat): seq<Key>
    requires k <= |hs|
    decreases |hs| - k
  {
    if k == |hs| then []
    else (if !IsDelegated(hs[k]) && Eligible(ev, hs[k]) then [Key(false, 0, k)] else []) + DirectKeys(ev, hs, k + 1)
  }

  /** From position n - 1 of the chain outward. */
  function OutwardKeys(page: Page, ev: Event, self: nat, c: seq<nat>, hs: seq<HandleObj>, n: nat): seq<Key>
    requires n <= |c|
  {
    if n == 0 || c[n - 1] == self then []
    else
      (if Skipped(page, ev, c[n - 1]) then [] else KeysAt(page, ev, hs, c[n - 1], n - 1, 0))
      + OutwardKeys(page, ev, self, c, hs, n - 1)
  }

  predicate WantedAt(page: Page, ev: Event, hs: seq<HandleObj>, x: nat, i: nat, k: nat, key: Key) {
    && key.delegated && key.i == i && k <= key.k < |hs|
    && IsDelegated(hs[key.k]) && page.fits(x, hs[key.k].selector) && Eligible(ev, hs[key.k])
  }

  predicate WantedDirectly(ev: Event, hs: seq<HandleObj>, k: nat, key: Key) {
    !key.delegated && key.i == 0 && k <= key.k < |hs| && !IsDelegated(hs[key.k]) && Eligible(ev, hs[key.k])
  }

  ghost predicate Increasing(keys: seq<Key>) {
    forall m, n :: 0 <= m < n < |keys| ==> keys[m].k < keys[n].k
  }

  lemma IncreasingCons(key: Key, rest: seq<Key>)
    requires Increasing(rest) && forall r :: r in rest ==> key.k < r.k
    ensures Increasing([key] + rest)
  {
    var keys := [key] + rest;
    forall m, n | 0 <= m < n < |keys| ensures keys[m].k < keys[n].k { assert keys[n] == rest[n - 1] && rest[n - 1] in rest; }
  }

  lemma {:induction false} KeysAtMeans(page: Page, ev: Event, hs: seq<HandleObj>, x: nat, i: nat, k: nat)
    requires k <= |hs|
    ensures forall key :: key in KeysAt(page, ev, hs, x, i, k) <==> WantedAt(page, ev, hs, x, i, k, key)
    ensures Increasing(KeysAt(page, ev, hs, x, i, k))
    decreases |hs| - k
  {
    hide IsDelegated, Eligible, Increasing;
    if k == |hs| {
      NoneIncreasing();
    } else {
      KeysAtMeans(page, ev, hs, x, i, k + 1);
      var rest := KeysAt(page, ev, hs, x, i, k + 1);
      var first := IsDelegated(hs[k]) && page.fits(x, hs[k].selector) && Eligible(ev, hs[k]);
      var all := KeysAt(page, ev, hs, x, i, k);
      assert [] + rest == rest;
      assert all == if first then [Key(true, i, k)] + rest else rest;
      hide KeysAt, WantedAt;
      forall key ensures key in all <==> WantedAt(page, ev, hs, x, i, k, key) { WantedAtStep(page, ev, hs, x, i, k, key); }
      if first {
        forall r | r in rest ensures r.k > k { WantedFrom(page, ev, hs, x, i, k + 1, r); }
        IncreasingCons(Key(true, i, k), rest);
      }
    }
  }

  lemma WantedAtStep(page: Page, ev: Event, hs: seq<HandleObj>, x: nat, i: nat, k: nat, key: Key)
    requires k < |hs|
    ensures WantedAt(page, ev, hs, x, i, k, key) <==>
      || (key == Key(true, i, k) && IsDelegated(hs[k]) && page.fits(x, hs[k].selector) && Eligible(ev, hs[k]))
      || WantedAt(page, ev, hs, x, i, k + 1, key)
  {
    hide IsDelegated, Eligible;
  }

  lemma WantedFrom(page: Page, ev: Event, hs: seq<HandleObj>, x: nat, i: nat, k: nat, key: Key)
    requires WantedAt(page, ev, hs, x, i, k, key)
    ensures key.k >= k
  {
  }

  lemma NoneIncreasing()
    ensures Increasing([])
  {
  }

  lemma {:induction false} DirectKeysMean(ev: Event, hs: seq<HandleObj>, k: nat)
    requires k <= |hs|
    ensures forall key :: key in DirectKeys(ev, hs, k) <==> WantedDirectly(ev, hs, k, key)
    ensures Increasing(DirectKeys(ev, hs, k))
    decreases |hs| - k
  {
    hide IsDelegated, Eligible, Increasing;
    if k == |hs| {
      NoneIncreasing();
    } else {
      DirectKeysMean(ev, hs, k + 1);
      var rest := DirectKeys(ev, hs, k + 1);
      var first := !IsDelegated(hs[k]) && Eligible(ev, hs[k]);
      var all := DirectKeys(ev, hs, k);
      assert [] + rest == rest;
      assert all == if first then [Key(false, 0, k)] + rest else rest;
      hide DirectKeys, WantedDirectly;
      forall key ensures key in all <==> WantedDirectly(ev, hs, k, key) { WantedDirectlyStep(ev, hs, k, key); }
      if first {
        forall r | r in rest ensures r.k > k { WantedDirectlyFrom(ev, hs, k + 1, r); }
        IncreasingCons(Key(false, 0, k), rest);
      }
    }
  }

  lemma WantedDirectlyStep(ev: Event, hs: seq<HandleObj>, k: nat, key: Key)
    requires k < |hs|
    ensures WantedDirectly(ev, hs, k, key) <==>
      (key == Key(false, 0, k) && !IsDelegated(hs[k]) && Eligible(ev, hs[k])) || WantedDirectly(ev, hs, k + 1, key)
  {
    hide IsDelegated, Eligible;
  }

  lemma WantedDirectlyFrom(ev: Event, hs: seq<HandleObj>, k: nat, key: Key)
    requires WantedDirectly(ev, hs, k, key)
    ensures key.k >= k
  {
  }

  lemma {:induction false} OutwardKeysMean(page: Page, ev: Event, self: nat, c: seq<nat>, hs: seq<HandleObj>, n: nat)
    requires n <= |c| && (forall j :: n <= j < |c| ==> c[j] != self) && !(ev.button && ev.kind == "click")
    ensures var keys := OutwardKeys(page, ev, self, c, hs, n);
      && (forall key :: key in keys <==> key.delegated && key.i < n && IsDue(page, ev, self, c, hs, key))
      && (forall a, b :: 0 <= a < b < |keys| ==> Precedes(keys[a], keys[b]))
  {
    if n > 0 && c[n - 1] != self {
      OutwardKeysMean(page, ev, self, c, hs, n - 1);
      KeysAtMeans(page, ev, hs, c[n - 1], n - 1, 0);
      var here := if Skipped(page, ev, c[n - 1]) then [] else KeysAt(page, ev, hs, c[n - 1], n - 1, 0);
      var rest := OutwardKeys(page, ev, self, c, hs, n - 1);
      hide IsDelegated, Eligible, KeysAt, OutwardKeys;
      HereOrFurther(page, ev, self, c, hs, n, here, rest);
    }
  }

  lemma HereOrFurther(page: Page, ev: Event, self: nat, c: seq<nat>, hs: seq<HandleObj>, n: nat, here: seq<Key>, rest: seq<Key>)
    requires 0 < n <= |c| && (forall j :: n <= j < |c| ==> c[j] != self) && c[n - 1] != self && !(ev.button && ev.kind == "click")
    requires forall key :: key in here <==>
      (!Skipped(page, ev, c[n - 1]) && key.delegated && key.i == n - 1 && key.k < |hs|
        && IsDelegated(hs[key.k]) && page.fits(c[n - 1], hs[key.k].selector) && Eligible(ev, hs[key.k]))
    requires Increasing(here)
    requires forall key :: key in rest <==> key.delegated && key.i < n - 1 && IsDue(page, ev, self, c, hs, key)
    requires forall a, b :: 0 <= a < b < |rest| ==> Precedes(rest[a], rest[b])
    ensures var keys := here + rest;
      && (forall key :: key in keys <==> key.delegated && key.i < n && IsDue(page, ev, self, c, hs, key))
      && (forall a, b :: 0 <= a < b < |keys| ==> Precedes(keys[a], keys[b]))
  {
    hide IsDelegated, Eligible;
    var keys := here + rest;
    forall key ensures key in here <==> key.delegated && key.i == n - 1 && IsDue(page, ev, self, c, hs, key) {}
    forall a, b | 0 <= a < b < |keys| ensures Precedes(keys[a], keys[b]) {
      if b < |here| { assert keys[a] in here && keys[b] in here; }
      else if a < |here| { assert keys[a] in here && keys[b] == rest[b - |here|] && rest[b - |here|] in rest; }
      else { assert keys[a] == rest[a - |here|] && keys[b] == rest[b - |here|]; }
    }
  }

  /** Delegated keys and then direct ones: all due keys in order. */
  function DueKeys(page: Page, ev: Event, self: nat, c: seq<nat>, hs: seq<HandleObj>): seq<Key> {
    (if ev.button && ev.kind == "click" then [] else OutwardKeys(page, ev, self, c, hs, |c|)) + DirectKeys(ev, hs, 0)
  }

  lemma DueKeysInOrder(page: Page, ev: Event, self: nat, c: seq<nat>, hs: seq<HandleObj>)
    ensures InOrder(page, ev, self, c, hs, DueKeys(page, ev, self, c, hs))
  {
    DirectKeysMean(ev, hs, 0);
    var click := ev.button && ev.kind == "click";
    if !click { OutwardKeysMean(page, ev, self, c, hs, |c|); }
    hide IsDelegated, Eligible, OutwardKeys, DirectKeys, InOrder;
    Both(page, ev, self, c, hs, if click then [] else OutwardKeys(page, ev, self, c, hs, |c|), DirectKeys(ev, hs, 0));
  }

  lemma Both(page: Page, ev: Event, self: nat, c: seq<nat>, hs: seq<HandleObj>, out: seq<Key>, direct: seq<Key>)
    requires forall key :: key in out <==> key.delegated && IsDue(page, ev, self, c, hs, key)
    requires forall m, n :: 0 <= m < n < |out| ==> Precedes(out[m], out[n])
    requires forall key :: key in direct <==> !key.delegated && IsDue(page, ev, self, c, hs, key)
    requires Increasing(direct)
    ensures InOrder(page, ev, self, c, hs, out + direct)
  {
    var keys := out + direct;
    hide IsDelegated, Eligible, Reached;
    forall m | 0 <= m < |keys| ensures IsDue(page, ev, self, c, hs, keys[m]) {
      if m < |out| { assert keys[m] in out; } else { assert keys[m] == direct[m - |out|] && keys[m] in direct; }
    }
    forall m, n | 0 <= m < n < |keys| ensures Precedes(keys[m], keys[n]) { OutFirst(out, direct, m, n); }
  }

  lemma OutFirst(out: seq<Key>, direct: seq<Key>, m: nat, n: nat)
    requires forall key :: key in out ==> key.delegated
    requires forall key :: key in direct ==> !key.delegated && key.i == 0
    requires forall m, n :: 0 <= m < n < |out| ==> Precedes(out[m], out[n])
    requires Increasing(direct)
    requires m < n < |out + direct|
    ensures Precedes((out + direct)[m], (out + direct)[n])
  {
    if m < |out| { assert out[m] in out; } else { assert direct[m - |out|] in direct; }
    if n < |out| { assert out[n] in out; } else { assert direct[n - |out|] in direct; }
  }

  /** The due runs of the queue from some entry on are those of the keys, grouped alike. */
  ghost predicate Grouped(due: seq<Due>, self: nat, c: seq<nat>, hs: seq<HandleObj>, keys: seq<Key>) {
    && |due| == |keys|
    && (forall m :: 0 <= m < |keys| ==> keys[m].k < |hs| && (keys[m].delegated ==> keys[m].i < |c|) && due[m].run == RunAt(self, c, hs, keys[m]))
    && (forall a, b :: 0 <= a < b < |keys| ==> due[a].group <= due[b].group && (due[a].group == due[b].group <==> SameElement(keys[a], keys[b])))
  }

  lemma GroupedConcat(d1: seq<Due>, d2: seq<Due>, self: nat, c: seq<nat>, hs: seq<HandleObj>, k1: seq<Key>, k2: seq<Key>, g: nat)
    requires Grouped(d1, self, c, hs, k1) && Grouped(d2, self, c, hs, k2)
    requires (forall m :: 0 <= m < |d1| ==> d1[m].group <= g) && (forall m :: 0 <= m < |d2| ==> d2[m].group > g)
    requires forall a, b :: a in k1 && b in k2 ==> !SameElement(a, b)
    ensures Grouped(d1 + d2, self, c, hs, k1 + k2)
  {
    var due, keys := d1 + d2, k1 + k2;
    forall a, b | 0 <= a < b < |keys|
      ensures due[a].group <= due[b].group && (due[a].group == due[b].group <==> SameElement(keys[a], keys[b]))
    {
      if a < |k1| <= b { assert keys[a] in k1 && keys[b] == k2[b - |k1|] && keys[b] in k2; }
    }
  }

  /** The handlers of one queue entry on the element at position i. */
  lemma {:induction false} DueAt(page: Page, ev: Event, g: nat, self: nat, c: seq<nat>, hs: seq<HandleObj>, i: nat, k: nat)
    requires i < |c| && k <= |hs|
    ensures Grouped(DueOf(ev, g, c[i], MatchingAt(page, c[i], Group(hs[k..], true))), self, c, hs, KeysAt(page, ev, hs, c[i], i, k))
    decreases |hs| - k
  {
    hide Group, MatchingAt, Grouped, DueOf, IsDelegated, Eligible;
    assert hs[|hs|..] == [];
    if k == |hs| {
      NoMatches(page, ev, g, self, c, hs, i);
    } else {
      DueAt(page, ev, g, self, c, hs, i, k + 1);
      assert hs[k..] == [hs[k]] + hs[k + 1..];
      MatchingCons(page, c[i], hs[k], hs[k + 1..]);
      KeysAtMeans(page, ev, hs, c[i], i, k + 1);
      OneMoreDue(ev, g, c[i], self, c, hs, MatchingAt(page, c[i], Group(hs[k + 1..], true)), KeysAt(page, ev, hs, c[i], i, k + 1),
        Key(true, i, k), IsDelegated(hs[k]) && page.fits(c[i], hs[k].selector));
    }
  }

  /** One more handler in front, if it is wanted on this element. */
  lemma OneMoreDue(ev: Event, g: nat, x: nat, self: nat, c: seq<nat>, hs: seq<HandleObj>, rest: seq<HandleObj>, keys: seq<Key>,
      key: Key, wanted: bool)
    requires Grouped(DueOf(ev, g, x, rest), self, c, hs, keys) && (forall r :: r in keys ==> SameElement(key, r))
    requires key.k < |hs| && (key.delegated ==> key.i < |c|) && RunAt(self, c, hs, key).elem == x
    ensures Grouped(DueOf(ev, g, x, (if wanted then [hs[key.k]] else []) + rest), self, c, hs,
      (if wanted && Eligible(ev, hs[key.k]) then [key] else []) + keys)
  {
    var h := hs[key.k];
    assert [] + rest == rest && [] + keys == keys && ([h] + rest)[1..] == rest;
    DueGroups(ev, g, x, rest);
    if wanted {
      assert DueOf(ev, g, x, [h] + rest) == (if Eligible(ev, h) then [Due(g, Run(x, h))] else []) + DueOf(ev, g, x, rest);
      assert [] + DueOf(ev, g, x, rest) == DueOf(ev, g, x, rest);
      hide Grouped, Eligible;
      if Eligible(ev, h) { GroupedCons(DueOf(ev, g, x, rest), self, c, hs, keys, Due(g, Run(x, h)), key); }
    }
  }

  lemma NoMatches(page: Page, ev: Event, g: nat, self: nat, c: seq<nat>, hs: seq<HandleObj>, i: nat)
    requires i < |c|
    ensures Grouped(DueOf(ev, g, c[i], MatchingAt(page, c[i], Group([], true))), self, c, hs, [])
  {
  }

  /** One more handler in front of those of the same element. */
  lemma GroupedCons(due: seq<Due>, self: nat, c: seq<nat>, hs: seq<HandleObj>, keys: seq<Key>, d: Due, key: Key)
    requires Grouped(due, self, c, hs, keys)
    requires key.k < |hs| && (key.delegated ==> key.i < |c|) && d.run == RunAt(self, c, hs, key)
    requires (forall m :: 0 <= m < |due| ==> due[m].group == d.group) && (forall m :: 0 <= m < |keys| ==> SameElement(key, keys[m]))
    ensures Grouped([d] + due, self, c, hs, [key] + keys)
  {
    hide IsDelegated;
  }

  lemma MatchingCons(page: Page, x: nat, h: HandleObj, hs: seq<HandleObj>)
    ensures MatchingAt(page, x, Group([h] + hs, true)) ==
      (if IsDelegated(h) && page.fits(x, h.selector) then [h] else []) + MatchingAt(page, x, Group(hs, true))
  {
    FilterCons(h, hs, (z: HandleObj) => IsDelegated(z) == true);
    if IsDelegated(h) { FilterCons(h, Group(hs, true), (z: HandleObj) => page.fits(x, z.selector)); }
  }

  lemma {:induction false} DueDirect(ev: Event, g: nat, self: nat, c: seq<nat>, hs: seq<HandleObj>, k: nat)
    requires k <= |hs|
    ensures Grouped(DueOf(ev, g, self, Group(hs[k..], false)), self, c, hs, DirectKeys(ev, hs, k))
    decreases |hs| - k
  {
    hide Group, Grouped, DueOf, IsDelegated, Eligible;
    assert hs[|hs|..] == [];
    if k == |hs| {
      NoneDirect(ev, g, self, c, hs);
    } else {
      DueDirect(ev, g, self, c, hs, k + 1);
      assert hs[k..] == [hs[k]] + hs[k + 1..];
      DirectCons(hs[k], hs[k + 1..]);
      DirectKeysMean(ev, hs, k + 1);
      OneMoreDue(ev, g, self, self, c, hs, Group(hs[k + 1..], false), DirectKeys(ev, hs, k + 1), Key(false, 0, k), !IsDelegated(hs[k]));
    }
  }

  lemma NoneDirect(ev: Event, g: nat, self: nat, c: seq<nat>, hs: seq<HandleObj>)
    ensures Grouped(DueOf(ev, g, self, Group([], false)), self, c, hs, [])
  {
  }

  lemma DirectCons(h: HandleObj, hs: seq<HandleObj>)
    ensures Group([h] + hs, false) == (if IsDelegated(h) then [] else [h]) + Group(hs, false)
  {
    FilterCons(h, hs, (z: HandleObj) => IsDelegated(z) == false);
  }

  /** The queue from its entry for position n - 1 of the chain on. */
  ghost predicate QueueFrom(page: Page, ev: Event, self: nat, c: seq<nat>, hs: seq<HandleObj>, queue: seq<Matched>, g: nat, n: nat) {
    && n <= |c| && g <= |queue|
    && queue[g..] == DelegateGroups(page, ev, Outward(c[..n], self), Group(hs, true)) + LastEntry(self, hs)
  }

  function LastEntry(self: nat, hs: seq<HandleObj>): seq<Matched> {
    if Group(hs, false) == [] then [] else [Matched(self, Group(hs, false))]
  }

  lemma {:induction false} GroupedFrom(page: Page, ev: Event, self: nat, c: seq<nat>, hs: seq<HandleObj>, queue: seq<Matched>, g: nat, n: nat)
    requires QueueFrom(page, ev, self, c, hs, queue, g, n)
    ensures Grouped(DueFrom(ev, queue, g), self, c, hs, OutwardKeys(page, ev, self, c, hs, n) + DirectKeys(ev, hs, 0))
    decreases n
  {
    hide Grouped, DueFrom, KeysAt, DirectKeys, MatchingAt, Group, IsDelegated, Eligible;
    if n == 0 || c[n - 1] == self {
      GroupedEnd(page, ev, self, c, hs, queue, g, n);
    } else {
      OutwardStep(c, n, self);
      var x := c[n - 1];
      var ms := MatchingAt(page, x, Group(hs, true));
      var rest := Outward(c[..n - 1], self);
      assert ([x] + rest)[1..] == rest;
      DueAt(page, ev, g, self, c, hs, n - 1, 0);
      assert hs[0..] == hs;
      if Skipped(page, ev, x) || ms == [] {
        GroupedFrom(page, ev, self, c, hs, queue, g, n - 1);
        if !Skipped(page, ev, x) { NothingHere(ev, g, x, self, c, hs, KeysAt(page, ev, hs, x, n - 1, 0)); }
        DropEmpty(OutwardKeys(page, ev, self, c, hs, n - 1));
      } else {
        assert queue[g] == queue[g..][0] == Matched(x, ms);
        assert queue[g + 1..] == queue[g..][1..];
        GroupedFrom(page, ev, self, c, hs, queue, g + 1, n - 1);
        GroupedHere(page, ev, self, c, hs, queue, g, n);
      }
    }
  }

  lemma DropEmpty(a: seq<Key>)
    ensures [] + a == a
  {
  }

  lemma NothingHere(ev: Event, g: nat, x: nat, self: nat, c: seq<nat>, hs: seq<HandleObj>, keys: seq<Key>)
    requires Grouped(DueOf(ev, g, x, []), self, c, hs, keys)
    ensures keys == []
  {
  }

  lemma GroupedEnd(page: Page, ev: Event, self: nat, c: seq<nat>, hs: seq<HandleObj>, queue: seq<Matched>, g: nat, n: nat)
    requires QueueFrom(page, ev, self, c, hs, queue, g, n) && (n == 0 || c[n - 1] == self)
    ensures Grouped(DueFrom(ev, queue, g), self, c, hs, OutwardKeys(page, ev, self, c, hs, n) + DirectKeys(ev, hs, 0))
  {
    hide Grouped, DirectKeys, Group, IsDelegated, Eligible;
    DueDirect(ev, g, self, c, hs, 0);
    assert hs[0..] == hs;
    DropEmpty(DirectKeys(ev, hs, 0));
    if Group(hs, false) == [] {
      assert queue[g..] == [];
    } else {
      assert queue[g..] == LastEntry(self, hs);
      assert queue[g] == queue[g..][0] && |queue| == g + 1;
      DueStep(ev, queue, g);
      assert DueOf(ev, g, self, Group(hs, false)) + [] == DueOf(ev, g, self, Group(hs, false));
    }
  }

  lemma GroupedHere(page: Page, ev: Event, self: nat, c: seq<nat>, hs: seq<HandleObj>, queue: seq<Matched>, g: nat, n: nat)
    requires 0 < n <= |c| && c[n - 1] != self && !Skipped(page, ev, c[n - 1]) && g < |queue|
    requires queue[g] == Matched(c[n - 1], MatchingAt(page, c[n - 1], Group(hs, true)))
    requires Grouped(DueOf(ev, g, c[n - 1], queue[g].matches), self, c, hs, KeysAt(page, ev, hs, c[n - 1], n - 1, 0))
    requires Grouped(DueFrom(ev, queue, g + 1), self, c, hs, OutwardKeys(page, ev, self, c, hs, n - 1) + DirectKeys(ev, hs, 0))
    ensures Grouped(DueFrom(ev, queue, g), self, c, hs, OutwardKeys(page, ev, self, c, hs, n) + DirectKeys(ev, hs, 0))
  {
    var here, out, direct := KeysAt(page, ev, hs, c[n - 1], n - 1, 0), OutwardKeys(page, ev, self, c, hs, n - 1), DirectKeys(ev, hs, 0);
    assert OutwardKeys(page, ev, self, c, hs, n) == here + out;
    hide Grouped, KeysAt, DirectKeys, OutwardKeys, MatchingAt, Group, IsDelegated, Eligible, DueOf, DueFrom;
    Associates(here, out, direct);
    OnOthers(page, ev, self, c, hs, n);
    DueStep(ev, queue, g);
    DueGroups(ev, g, c[n - 1], queue[g].matches);
    GroupedConcat(DueOf(ev, g, c[n - 1], queue[g].matches), DueFrom(ev, queue, g + 1), self, c, hs, here, out + direct, g);
  }

  lemma Associates(a: seq<Key>, b: seq<Key>, d: seq<Key>)
    ensures (a + b) + d == a + (b + d)
  {
  }

  /** The keys on one element share it with no other keys. */
  lemma OnOthers(page: Page, ev: Event, self: nat, c: seq<nat>, hs: seq<HandleObj>, n: nat)
    requires 0 < n <= |c|
    ensures var here, others := KeysAt(page, ev, hs, c[n - 1], n - 1, 0), OutwardKeys(page, ev, self, c, hs, n - 1) + DirectKeys(ev, hs, 0);
      forall a, b :: a in here && b in others ==> !SameElement(a, b)
  {
    KeysAtMeans(page, ev, hs, c[n - 1], n - 1, 0);
    DirectKeysMean(ev, hs, 0);
    FurtherOut(page, ev, self, c, hs, n - 1);
    var here, out, direct := KeysAt(page, ev, hs, c[n - 1], n - 1, 0), OutwardKeys(page, ev, self, c, hs, n - 1), DirectKeys(ev, hs, 0);
    hide KeysAt, DirectKeys, OutwardKeys, IsDelegated, Eligible;
    forall a: Key | a in here ensures a.delegated && a.i == n - 1 { assert WantedAt(page, ev, hs, c[n - 1], n - 1, 0, a); }
    forall b: Key | b in out + direct ensures b.delegated ==> b.i < n - 1 { if b in direct { assert WantedDirectly(ev, hs, 0, b); } }
    hide WantedAt, WantedDirectly;
  }

  lemma {:induction false} FurtherOut(page: Page, ev: Event, self: nat, c: seq<nat>, hs: seq<HandleObj>, n: nat)
    requires n <= |c|
    ensures forall key :: key in OutwardKeys(page, ev, self, c, hs, n) ==> key.delegated && key.i < n
  {
    if n > 0 && c[n - 1] != self {
      FurtherOut(page, ev, self, c, hs, n - 1);
      KeysAtMeans(page, ev, hs, c[n - 1], n - 1, 0);
      hide IsDelegated, Eligible, KeysAt;
    }
  }

  /** The queue of a dispatch holds the due runs in order. */
  lemma QueueIsInOrder(page: Page, ev: Event, self: nat, c: seq<nat>, hs: seq<HandleObj>)
    ensures Grouped(DueFrom(ev, Queue(page, ev, self, Outward(c, self), hs), 0), self, c, hs, DueKeys(page, ev, self, c, hs))
  {
    var queue := Queue(page, ev, self, Outward(c, self), hs);
    assert c[..|c|] == c && queue[0..] == queue;
    hide Grouped, KeysAt, DirectKeys, MatchingAt, Group, IsDelegated, Eligible;
    if ev.button && ev.kind == "click" {
      assert queue == [] + LastEntry(self, hs) == LastEntry(self, hs);
      NoWalk(page, ev, self, c, hs);
    } else {
      GroupedFrom(page, ev, self, c, hs, queue, 0, |c|);
    }
  }

  lemma NoWalk(page: Page, ev: Event, self: nat, c: seq<nat>, hs: seq<HandleObj>)
    ensures Grouped(DueFrom(ev, LastEntry(self, hs), 0), self, c, hs, [] + DirectKeys(ev, hs, 0))
  {
    var queue := LastEntry(self, hs);
    assert c[..0] == [] && DelegateGroups(page, ev, [], Group(hs, true)) + queue == queue && queue[0..] == queue;
    GroupedEnd(page, ev, self, c, hs, queue, 0, 0);
  }

  /** What a trace that is cut as specified means, run by run. */
  lemma CarriedMeans(page: Page, ev: Event, self: nat, c: seq<nat>, hs: seq<HandleObj>, due: seq<Due>, keys: seq<Key>,
      act: Act, trace: seq<Run>, prevented: bool)
    requires InOrder(page, ev, self, c, hs, keys) && Grouped(due, self, c, hs, keys) && Carried(due, act, |trace|, trace, prevented)
    ensures Dispatched(page, ev, self, c, hs, act, keys, trace, prevented)
  {
    hide InOrder, IsDelegated, Eligible;
    var n := |trace|;
    forall p | 0 <= p < n ensures trace[p] == due[p].run && trace[..p] == Runs(due[..p]) { RunsPrefix(due, n, p); }
    PreventedMeans(due, act, trace, prevented);
    CutMeans(self, c, hs, due, keys, act, trace, prevented);
    hide Carried, StopsBefore, Prevents;
  }

  lemma CutMeans(self: nat, c: seq<nat>, hs: seq<HandleObj>, due: seq<Due>, keys: seq<Key>, act: Act, trace: seq<Run>, prevented: bool)
    requires Grouped(due, self, c, hs, keys) && Carried(due, act, |trace|, trace, prevented)
    requires forall p :: 0 <= p < |trace| ==> trace[p] == due[p].run && trace[..p] == Runs(due[..p])
    ensures |trace| <= |keys|
    ensures forall p, q :: 0 <= p < q < |trace| ==> !StopsBefore(act(trace[..p], trace[p]), keys[p], keys[q])
    ensures |trace| < |keys| ==> exists p :: 0 <= p < |trace| && StopsBefore(act(trace[..p], trace[p]), keys[p], keys[|trace|])
  {
    hide Runs, RunAt;
    var n := |trace|;
    forall p: nat, q: nat | p < q < |keys| && p < n
      ensures StopsBefore(act(trace[..p], trace[p]), keys[p], keys[q]) <==> StopsNow(due, act, p) || (Stops(due, act, p) && due[p].group < due[q].group)
    {
      assert EffectAt(due, act, p) == act(trace[..p], trace[p]);
    }
    hide Grouped, StopsBefore, Stops, StopsNow;
    forall p: nat, q: nat | p < q < n ensures !StopsBefore(act(trace[..p], trace[p]), keys[p], keys[q]) { assert !Barred(due, act, q); }
    if n < |keys| {
      assert Barred(due, act, n);
      var k: nat :| k < n && (StopsNow(due, act, k) || (Stops(due, act, k) && due[k].group < due[n].group));
      assert StopsBefore(act(trace[..k], trace[k]), keys[k], keys[n]);
    }
  }

  lemma RunsPrefix(due: seq<Due>, n: nat, p: nat)
    requires p < n <= |due|
    ensures Runs(due[..n])[p] == due[p].run && Runs(due[..n])[..p] == Runs(due[..p])
  {
    if p == n - 1 {
      assert due[..n][..n - 1] == due[..n - 1];
    } else {
      RunsPrefix(due, n - 1, p);
      assert due[..n][..n - 1] == due[..n - 1];
    }
  }

  lemma PreventedMeans(due: seq<Due>, act: Act, trace: seq<Run>, prevented: bool)
    requires Carried(due, act, |trace|, trace, prevented)
    requires forall p :: 0 <= p < |trace| ==> trace[p] == due[p].run && trace[..p] == Runs(due[..p])
    ensures prevented <==> exists p :: 0 <= p < |trace| && Prevents(act(trace[..p], trace[p]))
  {
    if p :| 0 <= p < |trace| && Prevents(act(trace[..p], trace[p])) { assert EffectAt(due, act, p) == act(trace[..p], trace[p]); }
    if k: nat :| k < |trace| && Prevents(EffectAt(due, act, k)) { assert EffectAt(due, act, k) == act(trace[..k], trace[k]); }
  }

  // ----- dispatch -----

  /**
   dispatch on element self: the runs are those of the specified queue up to the cut,
   that is, the due runs in order up to the one that is cut off.
   */
  method Dispatch(page: Page, ev: Event, self: nat, el: ElementEvents, act: Act, ghost t: Tree)
    returns (trace: seq<Run>, prevented: bool)
    requires el.Valid() && Document(page.dom, t) && ev.target in Preorder(t)
    ensures var hs := Registered(el.log, ev.kind);
      Carried(DueFrom(ev, Queue(page, ev, self, Outward(Chain(t, ev.target), self), hs), 0), act, |trace|, trace, prevented)
    ensures var hs, c := Registered(el.log, ev.kind), Chain(t, ev.target);
      exists keys :: Dispatched(page, ev, self, c, hs, act, keys, trace, prevented)
  {
    ghost var hs := Registered(el.log, ev.kind);
    assert Kept(el.handlers, el.log, ev.kind);
    var handlers: seq<HandleObj>, delegateCount := [], 0;
    if ev.kind in el.handlers { handlers, delegateCount := el.handlers[ev.kind].list, el.handlers[ev.kind].delegateCount; }
    LaidGroups(hs);
    NothingLaid();
    assert handlers[..delegateCount] == Group(hs, true) && handlers[delegateCount..] == Group(hs, false);
    hide Document, Chain, Preorder, DelegateGroups, Carried, Registered, Group, DueFrom;
    var queue := [];
    if delegateCount > 0 && !(ev.button && ev.kind == "click") {
      queue := DelegatedQueue(page, ev, self, handlers[..delegateCount], t);
    } else if !(ev.button && ev.kind == "click") {
      NoDelegates(page, ev, Outward(Chain(t, ev.target), self));
    }
    if |handlers| > delegateCount {
      queue := queue + [Matched(self, handlers[delegateCount..])];
    }
    assert queue == Queue(page, ev, self, Outward(Chain(t, ev.target), self), hs);
    trace, prevented := RunQueue(ev, queue, act);
    TraceMeans(page, ev, self, Chain(t, ev.target), hs, act, trace, prevented);
  }

  lemma TraceMeans(page: Page, ev: Event, self: nat, c: seq<nat>, hs: seq<HandleObj>, act: Act, trace: seq<Run>, prevented: bool)
    requires Carried(DueFrom(ev, Queue(page, ev, self, Outward(c, self), hs), 0), act, |trace|, trace, prevented)
    ensures exists keys :: Dispatched(page, ev, self, c, hs, act, keys, trace, prevented)
  {
    hide Carried, Grouped, InOrder, Dispatched, Queue, DueKeys;
    var due, keys := DueFrom(ev, Queue(page, ev, self, Outward(c, self), hs), 0), DueKeys(page, ev, self, c, hs);
    DueKeysInOrder(page, ev, self, c, hs);
    QueueIsInOrder(page, ev, self, c, hs);
    CarriedMeans(page, ev, self, c, hs, due, keys, act, trace, prevented);
  }

  lemma {:induction false} NoDelegates(page: Page, ev: Event, path: seq<nat>)
    ensures DelegateGroups(page, ev, path, []) == []
  {
    if path != [] { NoDelegates(page, ev, path[1..]); }
  }
}
