/** Lists of results: Sizzle.uniqueSort and the de-duplication in jQuery.fn.find. */
module UniqueResults {
  import opened DocumentOrder

  // ----- lists in document order -----

  /** Sorted, repetitions allowed. */
  ghost predicate InOrder(pre: seq<nat>, s: seq<nat>) {
    forall i, j :: 0 <= i < j < |s| ==> s[i] == s[j] || Before(pre, s[i], s[j])
  }

  /** Strictly increasing. */
  ghost predicate Increasing(pre: seq<nat>, s: seq<nat>) {
    forall i, j :: 0 <= i < j < |s| ==> Before(pre, s[i], s[j])
  }

  ghost predicate Within(pre: seq<nat>, s: seq<nat>) {
    forall x :: x in s ==> x in pre
  }

  ghost predicate SameMembers(s: seq<nat>, r: seq<nat>) {
    forall x :: x in s <==> x in r
  }

  /** The members of s, once each, in document order. */
  function Those(pre: seq<nat>, s: seq<nat>): seq<nat> {
    if pre == [] then []
    else (if pre[0] in s then [pre[0]] else []) + Those(pre[1..], s)
  }

  lemma BeforeInRest(pre: seq<nat>, a: nat, b: nat)
    requires Before(pre, a, b) && pre != [] && a != pre[0]
    ensures Before(pre[1..], a, b)
  {
    var i, j :| 0 <= i < j < |pre| && pre[i] == a && pre[j] == b;
    assert pre[1..][i - 1] == a && pre[1..][j - 1] == b;
  }

  lemma NothingBeforeFirst(pre: seq<nat>, a: nat)
    requires Distinct(pre) && pre != []
    ensures !Before(pre, a, pre[0])
  {
  }

  /** A strictly increasing list is determined by its members. */
  lemma {:induction false} IncreasingIsUnique(pre: seq<nat>, r: seq<nat>, s: seq<nat>)
    requires Distinct(pre) && Increasing(pre, r) && Within(pre, r)
    requires forall x :: x in pre ==> (x in r <==> x in s)
    ensures r == Those(pre, s)
  {
    if pre == [] {
      NoMembers(r);
    } else {
      var rest := pre[1..];
      assert pre[0] in pre;
      if pre[0] in s {
        FirstComesFirst(pre, r);
        TailIncreasing(pre, r, 1);
        forall x | x in rest ensures x in r[1..] <==> x in s {
          assert x in pre;
          assert r == [r[0]] + r[1..];
          RestWithoutFirst(pre, x);
        }
        IncreasingIsUnique(rest, r[1..], s);
        assert r == [r[0]] + r[1..];
      } else {
        assert r[0..] == r;
        TailIncreasing(pre, r, 0);
        forall x | x in rest ensures x in r <==> x in s { assert x in pre; }
        IncreasingIsUnique(rest, r, s);
      }
    }
  }

  lemma NoMembers(r: seq<nat>)
    ensures (forall x :: x !in r) ==> r == []
  {
    if r != [] { assert r[0] in r; }
  }

  lemma RestWithoutFirst(pre: seq<nat>, x: nat)
    requires Distinct(pre) && pre != [] && x in pre[1..]
    ensures x != pre[0]
  {
    var k :| 0 <= k < |pre| - 1 && pre[1..][k] == x;
    assert pre[k + 1] == x;
  }

  lemma FirstComesFirst(pre: seq<nat>, r: seq<nat>)
    requires Distinct(pre) && Increasing(pre, r) && pre != [] && pre[0] in r
    ensures r != [] && r[0] == pre[0]
  {
    var k :| 0 <= k < |r| && r[k] == pre[0];
    if k > 0 { NothingBeforeFirst(pre, r[0]); }
  }

  lemma TailIncreasing(pre: seq<nat>, r: seq<nat>, n: nat)
    requires Distinct(pre) && pre != [] && Increasing(pre, r) && Within(pre, r) && n <= |r|
    requires pre[0] !in r[n..] || (n == 1 && r[0] == pre[0])
    ensures Increasing(pre[1..], r[n..]) && Within(pre[1..], r[n..])
  {
    forall i, j | 0 <= i < j < |r[n..]| ensures Before(pre[1..], r[n..][i], r[n..][j]) {
      assert Before(pre, r[n + i], r[n + j]);
      NotFirst(pre, r, n, n + i);
      BeforeInRest(pre, r[n + i], r[n + j]);
    }
    forall x | x in r[n..] ensures x in pre[1..] {
      var k :| n <= k < |r| && r[k] == x;
      NotFirst(pre, r, n, k);
      assert r[k] in r;
      assert pre == [pre[0]] + pre[1..];
    }
  }

  lemma NotFirst(pre: seq<nat>, r: seq<nat>, n: nat, k: nat)
    requires Distinct(pre) && pre != [] && Increasing(pre, r) && n <= k < |r|
    requires pre[0] !in r[n..] || (n == 1 && r[0] == pre[0])
    ensures r[k] != pre[0]
  {
    if pre[0] !in r[n..] {
      assert r[n..][k - n] == r[k];
    } else {
      assert Before(pre, r[0], r[k]);
      NothingBeforeFirst(pre, r[0]);
    }
  }

  // ----- find -----

  /** The members of more that are not in seen, in order. */
  function Fresh(seen: seq<nat>, more: seq<nat>): (r: seq<nat>)
    ensures forall x :: x in r <==> x in more && x !in seen
    decreases |more|
  {
    if more == [] then []
    else
      assert more == more[..|more| - 1] + [more[|more| - 1]];
      Fresh(seen, more[..|more| - 1]) + if more[|more| - 1] in seen then [] else [more[|more| - 1]]
  }

  /** What find returns for the given results per context. */
  function Merged(lists: seq<seq<nat>>): seq<nat> {
    if lists == [] then []
    else var u := Merged(lists[..|lists| - 1]); u + Fresh(u, lists[|lists| - 1])
  }

  function Concat(lists: seq<seq<nat>>): seq<nat> {
    if lists == [] then [] else Concat(lists[..|lists| - 1]) + lists[|lists| - 1]
  }

  /** The first occurrence of every member, in order. */
  function FirstOccurrences(s: seq<nat>): (r: seq<nat>)
    ensures forall x :: x in r <==> x in s
    ensures forall i, j :: 0 <= i < j < |r| ==> r[i] != r[j]
  {
    if s == [] then []
    else
      var r := FirstOccurrences(s[..|s| - 1]);
      assert s == s[..|s| - 1] + [s[|s| - 1]];
      if s[|s| - 1] in r then r else r + [s[|s| - 1]]
  }

  /** Of two members the one that occurs first in s comes first. */
  lemma {:induction false} FirstOccurrencesInOrder(s: seq<nat>, i: nat, j: nat) returns (p: nat)
    requires i < j < |FirstOccurrences(s)|
    ensures p < |s| && s[p] == FirstOccurrences(s)[i] && FirstOccurrences(s)[j] !in s[..p + 1]
    decreases |s|
  {
    var n := |s| - 1;
    var r := FirstOccurrences(s[..n]);
    if j < |r| {
      p := FirstOccurrencesInOrder(s[..n], i, j);
      assert s[..n][..p + 1] == s[..p + 1];
    } else {
      assert r[i] in s[..n] && FirstOccurrences(s)[j] == s[n] && s[n] !in s[..n];
      p :| 0 <= p < n && s[..n][p] == r[i];
      assert forall x :: x in s[..p + 1] ==> x in s[..n];
    }
  }

  lemma {:induction false} ConcatParts(a: seq<seq<nat>>, b: seq<seq<nat>>, list: seq<nat>)
    ensures Concat(a + b) == Concat(a) + Concat(b) && Concat([list]) == list
    decreases |b|
  {
    if b == [] {
      assert a + b == a;
    } else {
      assert (a + b)[..|a + b| - 1] == a + b[..|b| - 1];
      ConcatParts(a, b[..|b| - 1], list);
    }
    assert [list][..0] == [];
  }

  lemma {:induction false} FirstOccurrencesConcat(u: seq<nat>, more: seq<nat>)
    requires Distinct(more)
    ensures FirstOccurrences(u + more) == FirstOccurrences(u) + Fresh(FirstOccurrences(u), more)
    decreases |more|
  {
    if more == [] {
      assert u + more == u;
    } else {
      var n := |more| - 1;
      assert (u + more)[..|u + more| - 1] == u + more[..n];
      FirstOccurrencesConcat(u, more[..n]);
      assert more[n] !in more[..n];
    }
  }

  /** Duplicate-free results per context: find returns their union, each node where it first occurs. */
  lemma {:induction false} MergedIsUnion(lists: seq<seq<nat>>)
    requires forall k :: 0 <= k < |lists| ==> Distinct(lists[k])
    ensures Merged(lists) == FirstOccurrences(Concat(lists))
  {
    if lists != [] {
      var n := |lists| - 1;
      MergedIsUnion(lists[..n]);
      FirstOccurrencesConcat(Concat(lists[..n]), lists[n]);
    }
  }

  lemma DistinctConcat(u: seq<nat>, v: seq<nat>)
    requires forall x :: x in u ==> x !in v
    ensures Distinct(u + v) <==> Distinct(u) && Distinct(v)
  {
    if Distinct(u + v) {
      DistinctParts(u, v);
    } else {
      var i, j :| 0 <= i < j < |u + v| && (u + v)[i] == (u + v)[j];
      assert (forall k :: 0 <= k < |u| ==> u[k] in u) && forall k :: 0 <= k < |v| ==> v[k] in v;
      if i >= |u| { assert v[i - |u|] == v[j - |u|]; }
    }
  }

  /** No context lists a node twice, apart from nodes that an earlier context had. */
  ghost predicate FreshOnce(lists: seq<seq<nat>>) {
    forall k: nat :: k < |lists| ==> Distinct(FreshAt(lists, k))
  }

  function FreshAt(lists: seq<seq<nat>>, k: nat): seq<nat>
    requires k < |lists|
  {
    Fresh(Merged(lists[..k]), lists[k])
  }

  /** In general a repetition survives exactly when one context repeats a node that no earlier context had. */
  lemma {:induction false} WhenMergedIsDistinct(lists: seq<seq<nat>>)
    ensures Distinct(Merged(lists)) <==> FreshOnce(lists)
  {
    if lists != [] {
      var n := |lists| - 1;
      WhenMergedIsDistinct(lists[..n]);
      DistinctConcat(Merged(lists[..n]), FreshAt(lists, n));
      FreshOncePrefix(lists);
    }
  }

  lemma FreshOncePrefix(lists: seq<seq<nat>>)
    requires lists != []
    ensures var n := |lists| - 1; FreshOnce(lists) <==> FreshOnce(lists[..n]) && Distinct(FreshAt(lists, n))
  {
    hide Fresh, Merged, Distinct;
    var n := |lists| - 1;
    forall k: nat | k < n ensures FreshAt(lists[..n], k) == FreshAt(lists, k) {
      assert lists[..n][..k] == lists[..k];
    }
  }

  // ----- the mutable list -----

  class Results {
    var elems: seq<nat>
    var hasDuplicate: bool

    constructor ()
      ensures elems == []
    {
      elems := [];
      hasDuplicate := false;
    }

    /** One step of the sort: elems[n] goes into the sorted part before it. */
    method Insert(dom: Links, n: nat, ghost t: Tree)
      requires Document(dom, t) && n < |elems| && Within(Preorder(t), elems) && InOrder(Preorder(t), elems[..n])
      requires !hasDuplicate ==> Increasing(Preorder(t), elems[..n])
      modifies this
      ensures |elems| == |old(elems)| && SameMembers(elems, old(elems)) && InOrder(Preorder(t), elems[..n + 1])
      ensures !hasDuplicate ==> Increasing(Preorder(t), elems[..n + 1])
    {
      ghost var pre := Preorder(t);
      assert Distinct(pre);
      hide Document, Preorder, Before, Distinct, InOrder, Increasing, SameMembers;
      var x, was := elems[n], elems;
      var rest := was[..n];
      assert x in was && forall y :: y in rest ==> y in was;
      var p, same := Place(dom, rest, x, t);
      InsertOrder(pre, rest, p, x);
      MovedTo(was, n, p);
      elems := rest[..p] + [x] + rest[p..] + was[n + 1..];
      hasDuplicate := hasDuplicate || same;
    }

    /** The native sort, as an insertion sort; it meets every pair of equal elements that end up adjacent. */
    method Sort(dom: Links, ghost t: Tree)
      requires Document(dom, t) && Within(Preorder(t), elems)
      modifies this
      ensures SameMembers(elems, old(elems)) && InOrder(Preorder(t), elems)
      ensures !hasDuplicate ==> Increasing(Preorder(t), elems)
    {
      hide Document, Preorder, Before;
      var n := 0;
      while n < |elems|
        invariant n <= |elems| == |old(elems)| && SameMembers(elems, old(elems)) && InOrder(Preorder(t), elems[..n])
        invariant !hasDuplicate ==> Increasing(Preorder(t), elems[..n])
      {
        Insert(dom, n, t);
        n := n + 1;
      }
      assert elems[..n] == elems;
    }

    /** uniqueSort; baseHasDuplicate says that the engine may skip the comparator. */
    method UniqueSort(dom: Links, baseHasDuplicate: bool, ghost t: Tree)
      requires Document(dom, t) && Within(Preorder(t), elems)
      modifies this
      ensures Increasing(Preorder(t), elems) && SameMembers(elems, old(elems))
      ensures elems == Those(Preorder(t), old(elems))
    {
      ghost var pre := Preorder(t);
      hasDuplicate := baseHasDuplicate;
      assert Distinct(pre);
      hide Document, Preorder, Before, Distinct;
      Sort(dom, t);
      if hasDuplicate { DropRepeats(pre); }
      IncreasingIsUnique(pre, elems, old(elems));
    }

    /** The splice loop over adjacent repetitions. */
    method DropRepeats(ghost pre: seq<nat>)
      requires Distinct(pre) && InOrder(pre, elems)
      modifies this`elems
      ensures Increasing(pre, elems) && SameMembers(elems, old(elems))
    {
      hide Before, Distinct;
      var i := 1;
      while i < |elems|
        invariant 1 <= i && InOrder(pre, elems) && SameMembers(elems, old(elems))
        invariant Increasing(pre, elems[..if i <= |elems| then i else |elems|])
        decreases |elems| - i
      {
        if elems[i] == elems[i - 1] {
          assert elems == elems[..i] + [elems[i]] + elems[i + 1..];
          elems := elems[..i] + elems[i + 1..];
          i := i - 1;
        } else {
          StretchIncreasing(pre, elems, i);
        }
        i := i + 1;
      }
      assert elems[..|elems|] == elems;
    }

    /** find: append the results of every context and drop those of earlier contexts. */
    method Find(lists: seq<seq<nat>>)
      modifies this`elems
      ensures elems == Merged(lists)
    {
      elems := [];
      var i := 0;
      while i < |lists|
        invariant i <= |lists| && elems == Merged(lists[..i])
      {
        var length := |elems|;
        elems := elems + lists[i];
        if i > 0 { DropSeen(length); } else { FreshInEmpty(lists[0]); }
        assert lists[..i + 1][..i] == lists[..i];
        i := i + 1;
      }
      assert lists[..i] == lists;
    }

    /** The inner loop of find: does elems[n] stand among the first length elements? */
    method SeenBefore(length: nat, n: nat) returns (seen: bool)
      requires length <= n < |elems|
      ensures seen <==> elems[n] in elems[..length]
    {
      var r := 0;
      while r < length
        invariant r <= length && elems[n] !in elems[..r]
      {
        if elems[r] == elems[n] { return true; }
        r := r + 1;
      }
      seen := false;
    }

    /** The outer loop of find: everything from length on that occurs before it goes away. */
    method DropSeen(length: nat)
      requires length <= |elems|
      modifies this`elems
      ensures elems == old(elems)[..length] + Fresh(old(elems)[..length], old(elems)[length..])
    {
      ghost var u, more := elems[..length], elems[length..];
      hide Fresh;
      var n := length;
      ghost var k := 0;
      EmptyFresh(u);
      while n < |elems|
        invariant length <= n && k <= |more|
        invariant elems == u + Fresh(u, more[..k]) + more[k..] && n == length + |Fresh(u, more[..k])|
        decreases |elems| - n
      {
        DropTurn(u, more, k, elems, n);
        var seen := SeenBefore(length, n);
        if seen {
          elems := elems[..n] + elems[n + 1..];
          n := n - 1;
        }
        k := k + 1;
        n := n + 1;
      }
      assert more[..k] == more;
    }
  }

  lemma EmptyFresh(u: seq<nat>)
    ensures Fresh(u, []) == []
  {
  }

  lemma FreshStep(u: seq<nat>, more: seq<nat>, k: nat)
    requires k < |more|
    ensures Fresh(u, more[..k + 1]) == Fresh(u, more[..k]) + if more[k] in u then [] else [more[k]]
  {
    assert more[..k + 1][..k] == more[..k];
  }

  /** elems is u, then f, then more from k on: what stands at n is more[k], and what dropping it leaves. */
  lemma DropStep(u: seq<nat>, f: seq<nat>, more: seq<nat>, k: nat, elems: seq<nat>, n: nat)
    requires k <= |more| && elems == u + f + more[k..] && n == |u| + |f| < |elems|
    ensures k < |more| && elems[n] == more[k]
    ensures elems[..n] + elems[n + 1..] == u + f + more[k + 1..]
    ensures elems == u + (f + [more[k]]) + more[k + 1..]
    ensures elems[..|u|] == u
  {
  }

  /** One turn of the loop. */
  lemma DropTurn(u: seq<nat>, more: seq<nat>, k: nat, elems: seq<nat>, n: nat)
    requires k <= |more| && elems == u + Fresh(u, more[..k]) + more[k..] && n == |u| + |Fresh(u, more[..k])| < |elems|
    ensures k < |more| && elems[..|u|] == u
    ensures var f, gone := Fresh(u, more[..k + 1]), elems[n] in u;
      && (if gone then elems[..n] + elems[n + 1..] else elems) == u + f + more[k + 1..]
      && |u| + |f| == if gone then n else n + 1
  {
    hide Fresh;
    DropStep(u, Fresh(u, more[..k]), more, k, elems, n);
    FreshStep(u, more, k);
    assert Fresh(u, more[..k]) + [] == Fresh(u, more[..k]);
  }

  /** Where x goes into a sorted list, scanning from its end; same: an equal element was met. */
  method Place(dom: Links, rest: seq<nat>, x: nat, ghost t: Tree) returns (p: nat, same: bool)
    requires Document(dom, t) && Within(Preorder(t), rest) && x in Preorder(t)
    ensures p <= |rest| && forall k :: p <= k < |rest| ==> Before(Preorder(t), x, rest[k])
    ensures p > 0 ==> rest[p - 1] == x || Before(Preorder(t), rest[p - 1], x)
    ensures same <==> p > 0 && rest[p - 1] == x
  {
    hide Document, Preorder, Before;
    p, same := |rest|, false;
    while p > 0
      invariant p <= |rest| && !same
      invariant forall k :: p <= k < |rest| ==> Before(Preorder(t), x, rest[k])
    {
      assert rest[p - 1] in rest;
      var r, eq := SortOrder(dom, rest[p - 1], x, t);
      same := eq;
      if r <= 0 { return; }
      p := p - 1;
    }
  }

  lemma MovedTo(was: seq<nat>, n: nat, p: nat)
    requires p <= n < |was|
    ensures var rest := was[..n]; var head := rest[..p] + [was[n]] + rest[p..]; var now := head + was[n + 1..];
      |now| == |was| && now[..n + 1] == head && SameMembers(now, was)
  {
    var rest := was[..n];
    assert was == rest + [was[n]] + was[n + 1..] && rest == rest[..p] + rest[p..];
  }

  lemma InsertOrder(pre: seq<nat>, rest: seq<nat>, p: nat, x: nat)
    requires Distinct(pre) && p <= |rest| && InOrder(pre, rest)
    requires forall k :: p <= k < |rest| ==> Before(pre, x, rest[k])
    requires p > 0 ==> rest[p - 1] == x || Before(pre, rest[p - 1], x)
    ensures InOrder(pre, rest[..p] + [x] + rest[p..])
    ensures Increasing(pre, rest) && (p > 0 ==> rest[p - 1] != x) ==> Increasing(pre, rest[..p] + [x] + rest[p..])
  {
    var s := rest[..p] + [x] + rest[p..];
    hide Before;
    forall i, j | 0 <= i < j < |s| ensures s[i] == s[j] || Before(pre, s[i], s[j]) { InsertPair(pre, rest, p, x, i, j); }
    if Increasing(pre, rest) && (p > 0 ==> rest[p - 1] != x) {
      forall i, j | 0 <= i < j < |s| ensures Before(pre, s[i], s[j]) { InsertPair(pre, rest, p, x, i, j); }
    }
  }

  lemma InsertPair(pre: seq<nat>, rest: seq<nat>, p: nat, x: nat, i: nat, j: nat)
    requires Distinct(pre) && p <= |rest| && InOrder(pre, rest) && i < j <= |rest|
    requires forall k :: p <= k < |rest| ==> Before(pre, x, rest[k])
    requires p > 0 ==> rest[p - 1] == x || Before(pre, rest[p - 1], x)
    ensures var s := rest[..p] + [x] + rest[p..];
      && (s[i] == s[j] || Before(pre, s[i], s[j]))
      && (Increasing(pre, rest) && (p > 0 ==> rest[p - 1] != x) ==> Before(pre, s[i], s[j]))
  {
    hide Before, Distinct;
    var s := rest[..p] + [x] + rest[p..];
    assert s[i] == if i < p then rest[i] else if i == p then x else rest[i - 1];
    assert s[j] == if j < p then rest[j] else if j == p then x else rest[j - 1];
    if j == p && i < p - 1 && rest[p - 1] != x && rest[i] != rest[p - 1] {
      BeforeTransitive(pre, rest[i], rest[p - 1], x);
    }
  }

  /** A sorted list stays strictly increasing up to and including an element unequal to its predecessor. */
  lemma StretchIncreasing(pre: seq<nat>, s: seq<nat>, i: nat)
    requires Distinct(pre) && InOrder(pre, s) && 0 < i < |s| && Increasing(pre, s[..i]) && s[i] != s[i - 1]
    ensures Increasing(pre, s[..i + 1])
  {
    forall a, b | 0 <= a < b < i + 1 ensures Before(pre, s[a], s[b]) {
      if b < i {
        assert Before(pre, s[..i][a], s[..i][b]);
      } else if a < i - 1 {
        assert Before(pre, s[..i][a], s[..i][i - 1]);
        BeforeTransitive(pre, s[a], s[i - 1], s[i]);
      }
    }
  }

  lemma FreshInEmpty(more: seq<nat>)
    ensures Fresh([], more) == more
  {
    if more != [] { FreshInEmpty(more[..|more| - 1]); }
  }
}
