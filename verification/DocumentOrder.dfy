/** Sizzle's comparator without sourceIndex: it computes document order from parent and sibling links alone. */
module DocumentOrder {
  import opened Prelude

  /** The links of the nodes. */
  datatype Links = Links(parentNode: map<nat, nat>, nextSibling: map<nat, nat>)

  function ParentOf(dom: Links, n: nat): Option<nat> {
    if n in dom.parentNode then Some(dom.parentNode[n]) else None
  }

  function NextOf(dom: Links, n: nat): Option<nat> {
    if n in dom.nextSibling then Some(dom.nextSibling[n]) else None
  }

  /** A document as a tree; document order is its preorder. */
  datatype Tree = Node(id: nat, kids: seq<Tree>)

  function Preorder(t: Tree): seq<nat>
    decreases t, 0
  {
    [t.id] + PreorderAll(t.kids)
  }

  function PreorderAll(ts: seq<Tree>): seq<nat>
    decreases ts, 1
  {
    if ts == [] then [] else Preorder(ts[0]) + PreorderAll(ts[1..])
  }

  ghost predicate Distinct<T>(s: seq<T>) {
    forall i, j :: 0 <= i < j < |s| ==> s[i] != s[j]
  }

  /** a stands before b in s. */
  ghost predicate Before(s: seq<nat>, a: nat, b: nat) {
    exists i, j :: 0 <= i < j < |s| && s[i] == a && s[j] == b
  }

  /** The links are those of the tree. */
  ghost predicate Linked(dom: Links, t: Tree, parent: Option<nat>)
    decreases t
  {
    && ParentOf(dom, t.id) == parent
    && Siblings(dom, t.kids)
    && forall k :: 0 <= k < |t.kids| ==> Linked(dom, t.kids[k], Some(t.id))
  }

  ghost predicate Siblings(dom: Links, kids: seq<Tree>) {
    forall k :: 0 <= k < |kids| ==> NextOf(dom, kids[k].id) == if k + 1 < |kids| then Some(kids[k + 1].id) else None
  }

  ghost predicate Document(dom: Links, t: Tree) {
    Linked(dom, t, None) && Distinct(Preorder(t))
  }

  // ----- order in sequences -----

  lemma BeforeLeft(x: seq<nat>, y: seq<nat>, a: nat, b: nat)
    requires Before(x, a, b)
    ensures Before(x + y, a, b)
  {
    var i, j :| 0 <= i < j < |x| && x[i] == a && x[j] == b;
    assert (x + y)[i] == a && (x + y)[j] == b;
  }

  lemma BeforeRight(x: seq<nat>, y: seq<nat>, a: nat, b: nat)
    requires Before(y, a, b)
    ensures Before(x + y, a, b)
  {
    var i, j :| 0 <= i < j < |y| && y[i] == a && y[j] == b;
    assert (x + y)[|x| + i] == a && (x + y)[|x| + j] == b;
  }

  lemma BeforeAcross(x: seq<nat>, y: seq<nat>, a: nat, b: nat)
    requires a in x && b in y
    ensures Before(x + y, a, b)
  {
    var i :| 0 <= i < |x| && x[i] == a;
    var j :| 0 <= j < |y| && y[j] == b;
    assert (x + y)[i] == a && (x + y)[|x| + j] == b;
  }

  /** In a sequence without repetitions, "before" is a strict total order. */
  lemma BeforeIsOrder(s: seq<nat>, a: nat, b: nat)
    requires Distinct(s)
    ensures Before(s, a, b) ==> !Before(s, b, a)
    ensures a in s && b in s && a != b ==> Before(s, a, b) || Before(s, b, a)
    ensures !Before(s, a, a)
  {
    if a in s && b in s && a != b {
      var i :| 0 <= i < |s| && s[i] == a;
      var j :| 0 <= j < |s| && s[j] == b;
    }
  }

  lemma BeforeTransitive(s: seq<nat>, a: nat, b: nat, c: nat)
    requires Distinct(s) && Before(s, a, b) && Before(s, b, c)
    ensures Before(s, a, c)
  {
    var i, j :| 0 <= i < j < |s| && s[i] == a && s[j] == b;
    var k, l :| 0 <= k < l < |s| && s[k] == b && s[l] == c;
    assert j == k;
  }

  lemma DistinctParts(x: seq<nat>, y: seq<nat>)
    requires Distinct(x + y)
    ensures Distinct(x) && Distinct(y) && forall a :: a in x ==> a !in y
  {
    forall i, j | 0 <= i < j < |x| ensures x[i] != x[j] { assert (x + y)[i] == x[i] && (x + y)[j] == x[j]; }
    forall i, j | 0 <= i < j < |y| ensures y[i] != y[j] {
      assert (x + y)[|x| + i] == y[i] && (x + y)[|x| + j] == y[j];
    }
    forall i, j | 0 <= i < |x| && 0 <= j < |y| ensures x[i] != y[j] {
      assert (x + y)[i] == x[i] && (x + y)[|x| + j] == y[j];
    }
  }

  // ----- where a node is in the tree -----

  /** The child subtree that holds a. */
  function KidWith(ts: seq<Tree>, a: nat): (k: nat)
    requires a in PreorderAll(ts)
    ensures k < |ts| && a in Preorder(ts[k])
    decreases |ts|
  {
    if a in Preorder(ts[0]) then 0 else 1 + KidWith(ts[1..], a)
  }

  /** The nodes from the root down to a. */
  function Chain(t: Tree, a: nat): (c: seq<nat>)
    requires a in Preorder(t)
    ensures c != [] && c[0] == t.id && c[|c| - 1] == a
    ensures a == t.id <==> |c| == 1
    decreases t
  {
    if a == t.id then [t.id]
    else [t.id] + Chain(t.kids[KidWith(t.kids, a)], a)
  }

  lemma {:induction false} KidInside(ts: seq<Tree>, k: nat)
    requires k < |ts|
    ensures forall a :: a in Preorder(ts[k]) ==> a in PreorderAll(ts)
    decreases |ts|
  {
    if k > 0 { KidInside(ts[1..], k - 1); }
  }

  /** Subtrees of distinct children are distinct and disjoint, and ordered as the children are. */
  lemma {:induction false} KidsApart(ts: seq<Tree>, p: nat, q: nat)
    requires p < q < |ts| && Distinct(PreorderAll(ts))
    ensures Distinct(Preorder(ts[p])) && Distinct(Preorder(ts[q]))
    ensures forall a :: a in Preorder(ts[p]) ==> a !in Preorder(ts[q])
    ensures forall a, b :: a in Preorder(ts[p]) && b in Preorder(ts[q]) ==> Before(PreorderAll(ts), a, b)
    decreases |ts|
  {
    DistinctParts(Preorder(ts[0]), PreorderAll(ts[1..]));
    KidInside(ts[1..], q - 1);
    forall a, b | a in Preorder(ts[p]) && b in Preorder(ts[q]) ensures Before(PreorderAll(ts), a, b) {
      if p == 0 {
        BeforeAcross(Preorder(ts[0]), PreorderAll(ts[1..]), a, b);
      } else {
        KidsApart(ts[1..], p - 1, q - 1);
        BeforeRight(Preorder(ts[0]), PreorderAll(ts[1..]), a, b);
      }
    }
    if p > 0 { KidsApart(ts[1..], p - 1, q - 1); } else { KidDistinct(ts[1..], q - 1); }
  }

  lemma {:induction false} KidDistinct(ts: seq<Tree>, k: nat)
    requires k < |ts| && Distinct(PreorderAll(ts))
    ensures Distinct(Preorder(ts[k]))
    decreases |ts|
  {
    DistinctParts(Preorder(ts[0]), PreorderAll(ts[1..]));
    if k > 0 { KidDistinct(ts[1..], k - 1); }
  }

  lemma {:induction false} KidBefore(ts: seq<Tree>, k: nat, a: nat, b: nat)
    requires k < |ts| && Before(Preorder(ts[k]), a, b)
    ensures Before(PreorderAll(ts), a, b)
    decreases |ts|
  {
    if k == 0 { BeforeLeft(Preorder(ts[0]), PreorderAll(ts[1..]), a, b); }
    else {
      KidBefore(ts[1..], k - 1, a, b);
      BeforeRight(Preorder(ts[0]), PreorderAll(ts[1..]), a, b);
    }
  }

  lemma RootApart(t: Tree)
    requires Distinct(Preorder(t))
    ensures Distinct(PreorderAll(t.kids)) && t.id !in PreorderAll(t.kids)
  {
    DistinctParts([t.id], PreorderAll(t.kids));
  }

  lemma InKids(t: Tree, a: nat)
    requires a in Preorder(t)
    ensures t.id in Preorder(t) && (a == t.id || a in PreorderAll(t.kids))
    ensures forall x :: x in PreorderAll(t.kids) ==> x in Preorder(t)
  {
  }

  /** The parent link of a node leads one step up its chain. */
  lemma {:induction false} ParentInChain(dom: Links, t: Tree, parent: Option<nat>, a: nat)
    requires Linked(dom, t, parent) && Distinct(Preorder(t)) && a in Preorder(t)
    ensures var c := Chain(t, a);
      if |c| == 1 then ParentOf(dom, a) == parent
      else c[|c| - 2] in Preorder(t) && ParentOf(dom, a) == Some(c[|c| - 2]) && Chain(t, c[|c| - 2]) == c[..|c| - 1]
    decreases t
  {
    hide Siblings, Distinct, Preorder, PreorderAll;
    if a != t.id {
      InKids(t, a);
      RootApart(t);
      var k := KidWith(t.kids, a);
      KidDistinct(t.kids, k);
      KidInside(t.kids, k);
      ParentInChain(dom, t.kids[k], Some(t.id), a);
      var c := Chain(t.kids[k], a);
      if |c| > 1 {
        var up := c[|c| - 2];
        SameKid(t.kids, up, k);
        assert Chain(t, up) == [t.id] + c[..|c| - 1] == Chain(t, a)[..|c|];
      }
    }
  }

  lemma {:induction false} SameKid(ts: seq<Tree>, a: nat, k: nat)
    requires k < |ts| && a in Preorder(ts[k]) && Distinct(PreorderAll(ts))
    ensures a in PreorderAll(ts) && KidWith(ts, a) == k
    decreases |ts|
  {
    KidInside(ts, k);
    DistinctParts(Preorder(ts[0]), PreorderAll(ts[1..]));
    if k > 0 {
      KidInside(ts[1..], k - 1);
      SameKid(ts[1..], a, k - 1);
    }
  }

  /** Where the chains of a and b part: both go on from one node, into its children p and q. */
  datatype Parting = Parting(depth: nat, kids: seq<Tree>, p: nat, q: nat)

  /** w says how the chains ca and cb of a and b part, and what that means for their order in pre. */
  ghost predicate Parts(dom: Links, ca: seq<nat>, cb: seq<nat>, pre: seq<nat>, a: nat, b: nat, w: Parting) {
    && 0 < w.depth <= |ca| && w.depth <= |cb| && ca[..w.depth] == cb[..w.depth]
    && (forall i, j :: 0 <= i < j < |w.kids| ==> w.kids[i].id != w.kids[j].id)
    && (w.depth == |ca| ==> w.depth < |cb| && Before(pre, a, b))
    && (w.depth == |cb| ==> w.depth < |ca| && Before(pre, b, a))
    && (w.depth < |ca| && w.depth < |cb| ==>
      && w.p < |w.kids| && w.q < |w.kids| && w.p != w.q && Siblings(dom, w.kids)
      && ca[w.depth] == w.kids[w.p].id && cb[w.depth] == w.kids[w.q].id && ca[w.depth] != cb[w.depth]
      && (if w.p < w.q then Before(pre, a, b) else Before(pre, b, a)))
  }

  lemma LiftParts(dom: Links, t: Tree, k: nat, a: nat, b: nat, v: Parting)
    requires k < |t.kids| && a in Preorder(t.kids[k]) && b in Preorder(t.kids[k])
    requires Parts(dom, Chain(t.kids[k], a), Chain(t.kids[k], b), Preorder(t.kids[k]), a, b, v)
    ensures Parts(dom, [t.id] + Chain(t.kids[k], a), [t.id] + Chain(t.kids[k], b), Preorder(t), a, b, v.(depth := v.depth + 1))
  {
    hide Siblings, Chain, Preorder;
    var ca, cb := Chain(t.kids[k], a), Chain(t.kids[k], b);
    assert ([t.id] + ca)[..v.depth + 1] == [t.id] + ca[..v.depth];
    assert ([t.id] + cb)[..v.depth + 1] == [t.id] + cb[..v.depth];
    if Before(Preorder(t.kids[k]), a, b) { LiftBefore(t, k, a, b); }
    if Before(Preorder(t.kids[k]), b, a) { LiftBefore(t, k, b, a); }
  }

  lemma SplitParts(dom: Links, t: Tree, p: nat, q: nat, a: nat, b: nat)
    requires Siblings(dom, t.kids) && Distinct(PreorderAll(t.kids)) && p < |t.kids| && q < |t.kids| && p != q
    requires a in Preorder(t.kids[p]) && b in Preorder(t.kids[q])
    ensures Parts(dom, [t.id] + Chain(t.kids[p], a), [t.id] + Chain(t.kids[q], b), Preorder(t), a, b, Parting(1, t.kids, p, q))
  {
    hide Siblings, Preorder;
    DistinctIds(t.kids);
    if p < q {
      KidsApart(t.kids, p, q);
      assert Before(PreorderAll(t.kids), a, b);
      BeforeRight([t.id], PreorderAll(t.kids), a, b);
    } else {
      KidsApart(t.kids, q, p);
      assert Before(PreorderAll(t.kids), b, a);
      BeforeRight([t.id], PreorderAll(t.kids), b, a);
    }
    assert Preorder(t) == [t.id] + PreorderAll(t.kids) by { PreorderDef(t); }
  }

  lemma PreorderDef(t: Tree)
    ensures Preorder(t) == [t.id] + PreorderAll(t.kids)
  {
  }

  lemma RootParts(dom: Links, t: Tree, c: nat)
    requires c in Preorder(t) && c != t.id
    ensures Parts(dom, Chain(t, t.id), Chain(t, c), Preorder(t), t.id, c, Parting(1, [], 0, 0))
    ensures Parts(dom, Chain(t, c), Chain(t, t.id), Preorder(t), c, t.id, Parting(1, [], 0, 0))
  {
    BeforeAcross([t.id], PreorderAll(t.kids), t.id, c);
  }

  /** Ancestors come first; otherwise the order of a and b is that of the children in which they part. */
  lemma {:induction false} OrderByChains(dom: Links, t: Tree, parent: Option<nat>, a: nat, b: nat) returns (w: Parting)
    requires Linked(dom, t, parent) && Distinct(Preorder(t)) && a in Preorder(t) && b in Preorder(t) && a != b
    ensures Parts(dom, Chain(t, a), Chain(t, b), Preorder(t), a, b, w)
    decreases t
  {
    RootApart(t);
    hide Parts, Distinct;
    if a == t.id {
      RootParts(dom, t, b);
      w := Parting(1, [], 0, 0);
    } else if b == t.id {
      RootParts(dom, t, a);
      w := Parting(1, [], 0, 0);
    } else {
      var p, q := KidWith(t.kids, a), KidWith(t.kids, b);
      if p == q {
        KidDistinct(t.kids, p);
        var v := OrderByChains(dom, t.kids[p], Some(t.id), a, b);
        w := v.(depth := v.depth + 1);
        LiftParts(dom, t, p, a, b, v);
      } else {
        w := Parting(1, t.kids, p, q);
        SplitParts(dom, t, p, q, a, b);
      }
    }
  }

  lemma LiftBefore(t: Tree, k: nat, a: nat, b: nat)
    requires k < |t.kids| && Before(Preorder(t.kids[k]), a, b)
    ensures Before(Preorder(t), a, b)
  {
    KidBefore(t.kids, k, a, b);
    BeforeRight([t.id], PreorderAll(t.kids), a, b);
  }

  lemma DistinctIds(ts: seq<Tree>)
    requires Distinct(PreorderAll(ts))
    ensures forall i, j :: 0 <= i < j < |ts| ==> ts[i].id != ts[j].id
  {
    forall i, j | 0 <= i < j < |ts| ensures ts[i].id != ts[j].id {
      KidsApart(ts, i, j);
      assert ts[i].id in Preorder(ts[i]) && ts[j].id in Preorder(ts[j]);
    }
  }

  // ----- the comparator -----

  /** siblingCheck, for two children of one node. */
  method SiblingCheck(dom: Links, a: nat, b: nat, ret: int, ghost kids: seq<Tree>, ghost p: nat, ghost q: nat) returns (r: int)
    requires a != b ==> Siblings(dom, kids) && p < |kids| && q < |kids| && a == kids[p].id && b == kids[q].id
    requires forall i, j :: 0 <= i < j < |kids| ==> kids[i].id != kids[j].id
    ensures r == if a == b then ret else if p < q then -1 else 1
  {
    if a == b { return ret; }
    var cur := NextOf(dom, a);
    ghost var i := p + 1;
    while cur.Some?
      invariant p < i <= |kids|
      invariant cur == if i < |kids| then Some(kids[i].id) else None
      invariant p < q ==> i <= q
      decreases |kids| - i
    {
      if cur.value == b { return -1; }
      cur := NextOf(dom, cur.value);
      i := i + 1;
    }
    r := 1;
  }

  /** The ancestors of n below position k of its chain are its parent links, followed k times. */
  lemma ParentAt(dom: Links, t: Tree, n: nat, k: nat)
    requires Document(dom, t) && n in Preorder(t) && Chain(t, n) != [] && k < |Chain(t, n)|
    ensures var c := Chain(t, n);
      c[k] in Preorder(t) && Chain(t, c[k]) == c[..k + 1] && ParentOf(dom, c[k]) == if k > 0 then Some(c[k - 1]) else None
    decreases |Chain(t, n)| - k
  {
    var c := Chain(t, n);
    if k + 1 < |c| {
      ParentAt(dom, t, n, k + 1);
      ParentInChain(dom, t, None, c[k + 1]);
      assert c[..k + 2][..k + 1] == c[..k + 1];
    } else {
      assert c[..k + 1] == c;
    }
    ParentInChain(dom, t, None, c[k]);
  }

  /** The parents of n, outermost first (the unshift loops of sortOrder). */
  method Ancestors(dom: Links, n: nat, ghost t: Tree) returns (up: seq<nat>)
    requires Document(dom, t) && n in Preorder(t)
    ensures var c := Chain(t, n); up == c[..|c| - 1]
  {
    ghost var c := Chain(t, n);
    ParentAt(dom, t, n, |c| - 1);
    hide Document, Chain, Preorder;
    var cur := ParentOf(dom, n);
    up := [];
    ghost var k: nat := |c| - 1;
    while cur.Some?
      invariant k < |c| && up == c[k..|c| - 1]
      invariant cur == if k > 0 then Some(c[k - 1]) else None
      decreases k
    {
      ParentAt(dom, t, n, k - 1);
      up := [cur.value] + up;
      cur := ParentOf(dom, cur.value);
      k := k - 1;
    }
  }

  /** The walk down both ancestor lists to the first difference. */
  method CompareChains(dom: Links, a: nat, b: nat, ap: seq<nat>, bp: seq<nat>, ghost pre: seq<nat>, ghost w: Parting) returns (r: int)
    requires Parts(dom, ap + [a], bp + [b], pre, a, b, w)
    requires ap != bp
    ensures (r == -1 && Before(pre, a, b)) || (r == 1 && Before(pre, b, a))
  {
    hide Before, Siblings;
    ghost var ca, cb := ap + [a], bp + [b];
    PrefixAgrees(ca, cb, w.depth);
    var i := 0;
    while i < |ap| && i < |bp|
      invariant i <= |ap| && i <= |bp| && i <= w.depth && ap[..i] == bp[..i]
    {
      assert ap[i] == ca[i] && bp[i] == cb[i];
      if ap[i] != bp[i] {
        assert w.depth == i;
        r := SiblingCheck(dom, ap[i], bp[i], 0, w.kids, w.p, w.q);
        return;
      }
      i := i + 1;
    }
    if i == |ap| {
      assert i < |bp| by { assert ap == ap[..i]; assert bp[..i] == ap; }
      assert bp[i] == cb[i] && ca[i] == a;
      r := SiblingCheck(dom, a, bp[i], -1, w.kids, w.p, w.q);
    } else {
      assert ap[i] == ca[i] && cb[i] == b;
      r := SiblingCheck(dom, ap[i], b, 1, w.kids, w.p, w.q);
    }
  }

  lemma PrefixAgrees(x: seq<nat>, y: seq<nat>, n: nat)
    requires n <= |x| && n <= |y| && x[..n] == y[..n]
    ensures forall k :: 0 <= k < n ==> x[k] == y[k]
  {
    forall k | 0 <= k < n ensures x[k] == y[k] { assert x[..n][k] == x[k] && y[..n][k] == y[k]; }
  }

  lemma SameParent(dom: Links, t: Tree, a: nat, b: nat)
    requires Document(dom, t) && a in Preorder(t) && b in Preorder(t) && ParentOf(dom, a) == ParentOf(dom, b)
    ensures var ca, cb := Chain(t, a), Chain(t, b); ca[..|ca| - 1] == cb[..|cb| - 1]
  {
    ParentInChain(dom, t, None, a);
    ParentInChain(dom, t, None, b);
  }

  /** What the comparator may rely on: a node without a parent is the root, and every other chain ends in the parent link. */
  lemma Setup(dom: Links, t: Tree, a: nat, b: nat) returns (w: Parting)
    requires Document(dom, t) && a in Preorder(t) && b in Preorder(t) && a != b
    ensures Parts(dom, Chain(t, a), Chain(t, b), Preorder(t), a, b, w)
    ensures ParentOf(dom, a).None? ==> ParentOf(dom, b).None? || Before(Preorder(t), a, b)
    ensures ParentOf(dom, b).None? ==> ParentOf(dom, a).None? || Before(Preorder(t), b, a)
    ensures EndsIn(Chain(t, a), ParentOf(dom, a), a) && EndsIn(Chain(t, b), ParentOf(dom, b), b)
  {
    w := OrderByChains(dom, t, None, a, b);
    ParentAt(dom, t, a, |Chain(t, a)| - 1);
    ParentAt(dom, t, b, |Chain(t, b)| - 1);
    hide Document, Preorder, Chain, Before, Siblings;
  }

  ghost predicate EndsIn(c: seq<nat>, parent: Option<nat>, a: nat) {
    c != [] && c[|c| - 1] == a && parent == if |c| == 1 then None else Some(c[|c| - 2])
  }

  /** sortOrder on nodes of one document; same: the hasDuplicate flag. */
  method SortOrder(dom: Links, a: nat, b: nat, ghost t: Tree) returns (r: int, same: bool)
    requires Document(dom, t) && a in Preorder(t) && b in Preorder(t)
    ensures same <==> a == b
    ensures r == 0 <==> a == b
    ensures r < 0 <==> Before(Preorder(t), a, b)
    ensures r > 0 <==> Before(Preorder(t), b, a)
  {
    assert Distinct(Preorder(t));
    BeforeIsOrder(Preorder(t), a, b);
    BeforeIsOrder(Preorder(t), b, a);
    hide *;
    if a == b { return 0, true; }
    same := false;
    r := CompareNodes(dom, a, b, t);
  }

  method CompareNodes(dom: Links, a: nat, b: nat, ghost t: Tree) returns (r: int)
    requires Document(dom, t) && a in Preorder(t) && b in Preorder(t) && a != b
    ensures (r == -1 && Before(Preorder(t), a, b)) || (r == 1 && Before(Preorder(t), b, a))
  {
    ghost var w := Setup(dom, t, a, b);
    ghost var ca, cb := Chain(t, a), Chain(t, b);
    hide Document, Preorder, Chain, Before, Siblings, Parts, ParentOf;
    var aup, bup := ParentOf(dom, a), ParentOf(dom, b);
    if aup == bup {
      SameParent(dom, t, a, b);
      r := CompareSiblings(dom, a, b, ca, cb, Preorder(t), w);
    } else if aup.None? {
      r := -1;
    } else if bup.None? {
      r := 1;
    } else {
      r := CompareByChains(dom, a, b, t, w);
    }
  }

  /** Neither node is a root: the chains of their parents are compared. */
  method CompareByChains(dom: Links, a: nat, b: nat, ghost t: Tree, ghost w: Parting) returns (r: int)
    requires Document(dom, t) && a in Preorder(t) && b in Preorder(t) && a != b
    requires ParentOf(dom, a).Some? && ParentOf(dom, b).Some? && ParentOf(dom, a) != ParentOf(dom, b)
    requires Parts(dom, Chain(t, a), Chain(t, b), Preorder(t), a, b, w)
    requires EndsIn(Chain(t, a), ParentOf(dom, a), a) && EndsIn(Chain(t, b), ParentOf(dom, b), b)
    ensures (r == -1 && Before(Preorder(t), a, b)) || (r == 1 && Before(Preorder(t), b, a))
  {
    hide Document, Preorder, Chain, Before, Siblings, Parts, ParentOf;
    var ap := Ancestors(dom, a, t);
    var bp := Ancestors(dom, b, t);
    assert Chain(t, a) == ap + [a] && Chain(t, b) == bp + [b];
    assert Some(ap[|ap| - 1]) == ParentOf(dom, a) && Some(bp[|bp| - 1]) == ParentOf(dom, b);
    r := CompareChains(dom, a, b, ap, bp, Preorder(t), w);
  }

  /** The quick check for nodes with one parent. */
  method CompareSiblings(dom: Links, a: nat, b: nat, ghost ca: seq<nat>, ghost cb: seq<nat>, ghost pre: seq<nat>, ghost w: Parting)
    returns (r: int)
    requires Parts(dom, ca, cb, pre, a, b, w) && a != b
    requires ca != [] && cb != [] && ca[|ca| - 1] == a && cb[|cb| - 1] == b && ca[..|ca| - 1] == cb[..|cb| - 1]
    ensures (r == -1 && Before(pre, a, b)) || (r == 1 && Before(pre, b, a))
  {
    SiblingParts(dom, ca, cb, pre, a, b, w);
    hide Before, Siblings;
    r := SiblingCheck(dom, a, b, 0, w.kids, w.p, w.q);
  }

  /** Two nodes with the same ancestors part right below them. */
  lemma SiblingParts(dom: Links, ca: seq<nat>, cb: seq<nat>, pre: seq<nat>, a: nat, b: nat, w: Parting)
    requires Parts(dom, ca, cb, pre, a, b, w) && a != b
    requires ca != [] && cb != [] && ca[|ca| - 1] == a && cb[|cb| - 1] == b && ca[..|ca| - 1] == cb[..|cb| - 1]
    ensures w.depth == |ca| - 1 == |cb| - 1
  {
    hide Before, Siblings;
    var n := |ca| - 1;
    assert |cb| - 1 == n;
    PrefixAgrees(ca, cb, n);
    PrefixAgrees(ca, cb, w.depth);
  }
}
