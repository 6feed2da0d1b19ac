/**
 Selectors of simple filters and the four combinators over an abstract document,
 with their plain meaning (section 8 of W3C Selectors Level 3), and the closures
 that Sizzle compiles them to.
 */
module Selectors {
  import opened Prelude

  datatype Dir = ParentNode | PreviousSibling

  /** Expr.relative: " ", ">", "~" and "+"; first: look at the nearest element only. */
  datatype Combinator = Combinator(dir: Dir, first: bool)

  datatype Token = Relative(c: Combinator) | Filter(f: nat)

  /**
   The document during one pass: links between nodes, which nodes are elements
   (nodeType 1), and which simple filters hold of which nodes. The position of a
   node is its place in document order.
   */
  datatype Dom = Dom(
    parentNode: map<nat, nat>,
    previousSibling: map<nat, nat>,
    elements: set<nat>,
    holds: set<(nat, nat)>,
    position: map<nat, nat>)

  function Next(dom: Dom, dir: Dir, n: nat): Option<nat> {
    var links := if dir == ParentNode then dom.parentNode else dom.previousSibling;
    if n in links then Some(links[n]) else None
  }

  function Pos(dom: Dom, n: nat): nat {
    if n in dom.position then dom.position[n] else 0
  }

  /** Parents and previous siblings come earlier in document order. */
  ghost predicate Ordered(dom: Dom) {
    && (forall n :: n in dom.parentNode ==> Pos(dom, dom.parentNode[n]) < Pos(dom, n))
    && (forall n :: n in dom.previousSibling ==> Pos(dom, dom.previousSibling[n]) < Pos(dom, n))
  }

  /** The elements met when following dir from n, nearest first. */
  function Walk(dom: Dom, dir: Dir, n: nat): seq<nat>
    requires Ordered(dom)
    decreases Pos(dom, n)
  {
    match Next(dom, dir, n)
    case None => []
    case Some(p) => (if p in dom.elements then [p] else []) + Walk(dom, dir, p)
  }

  /** The elements that combinator c relates to n. */
  function Related(dom: Dom, c: Combinator, n: nat): seq<nat>
    requires Ordered(dom)
  {
    var w := Walk(dom, c.dir, n);
    if c.first && w != [] then [w[0]] else w
  }

  /** The node k links away from n. */
  function Away(dom: Dom, dir: Dir, n: nat, k: nat): Option<nat>
    decreases k
  {
    if k == 0 then Some(n)
    else
      var p := Next(dom, dir, n);
      if p.None? then None else Away(dom, dir, p.value, k - 1)
  }

  /** a is one or more links away from n. */
  ghost predicate Reaches(dom: Dom, dir: Dir, n: nat, a: nat) {
    exists k: nat :: k > 0 && Away(dom, dir, n, k) == Some(a)
  }

  lemma ReachesStep(dom: Dom, dir: Dir, n: nat, p: nat, a: nat)
    requires Next(dom, dir, n) == Some(p)
    ensures Reaches(dom, dir, n, a) <==> a == p || Reaches(dom, dir, p, a)
  {
    assert Away(dom, dir, n, 1) == Away(dom, dir, p, 0) == Some(p);
    if a != p && Reaches(dom, dir, n, a) {
      var k: nat :| k > 0 && Away(dom, dir, n, k) == Some(a);
      assert k > 1 && Away(dom, dir, p, k - 1) == Some(a);
    }
    if Reaches(dom, dir, p, a) {
      var k: nat :| k > 0 && Away(dom, dir, p, k) == Some(a);
      assert Away(dom, dir, n, k + 1) == Some(a);
    }
  }

  /** " " and "~": the related elements are all elements one or more links away. */
  lemma {:induction false} SearchReaches(dom: Dom, dir: Dir, n: nat, a: nat)
    requires Ordered(dom)
    ensures a in Related(dom, Combinator(dir, false), n) <==> a in dom.elements && Reaches(dom, dir, n, a)
    decreases Pos(dom, n)
  {
    var next := Next(dom, dir, n);
    if next.None? {
      assert forall k :: k > 0 ==> Away(dom, dir, n, k) == None;
    } else {
      SearchReaches(dom, dir, next.value, a);
      ReachesStep(dom, dir, n, next.value, a);
    }
  }

  /** ">" and "+": the related element, if any, is the nearest: only non-elements lie before it. */
  lemma {:induction false} NearestReaches(dom: Dom, dir: Dir, n: nat) returns (k: nat)
    requires Ordered(dom)
    ensures var r := Related(dom, Combinator(dir, true), n);
      && (r == [] ==> Away(dom, dir, n, k) == None)
      && (r != [] ==> |r| == 1 && k > 0 && Away(dom, dir, n, k) == Some(r[0]) && r[0] in dom.elements)
      && (forall j :: 0 < j < k ==> Away(dom, dir, n, j).Some? && Away(dom, dir, n, j).value !in dom.elements)
    decreases Pos(dom, n)
  {
    var next := Next(dom, dir, n);
    if next.None? {
      k := 1;
    } else if next.value in dom.elements {
      k := 1;
      assert Away(dom, dir, n, 1) == Away(dom, dir, next.value, 0);
    } else {
      var i := NearestReaches(dom, dir, next.value);
      k := i + 1;
      assert forall j :: 0 < j < k ==> Away(dom, dir, n, j) == Away(dom, dir, next.value, j - 1);
    }
  }

  /** ">" on a tree whose non-element nodes are roots: the related element is the parent. */
  lemma ChildOfParent(dom: Dom, n: nat, a: nat)
    requires Ordered(dom)
    requires forall p :: p in dom.parentNode.Values && p !in dom.elements ==> p !in dom.parentNode
    ensures a in Related(dom, Combinator(ParentNode, true), n) <==>
      a in dom.elements && Next(dom, ParentNode, n) == Some(a)
  {
    var next := Next(dom, ParentNode, n);
    if next.Some? {
      assert next.value in dom.parentNode.Values;
      assert Walk(dom, ParentNode, n) == (if next.value in dom.elements then [next.value] else []) + Walk(dom, ParentNode, next.value);
    }
  }

  /** The meaning of a token list for element e, read from the right; a leading combinator hangs on the context. */
  ghost predicate Selects(dom: Dom, context: nat, tokens: seq<Token>, e: nat)
    requires Ordered(dom)
    decreases |tokens|
  {
    if tokens == [] then true
    else
      var left, last := tokens[..|tokens| - 1], tokens[|tokens| - 1];
      match last
      case Filter(f) => (f, e) in dom.holds && Selects(dom, context, left, e)
      case Relative(c) =>
        if left == [] then context in Related(dom, c, e)
        else exists a :: a in Related(dom, c, e) && Selects(dom, context, left, a)
  }

  /**
   One element for every gap between tokens, e behind the last: a filter stays at its
   element, a combinator goes over to a related one, and a leading combinator comes
   from the context.
   */
  ghost predicate Chain(dom: Dom, context: nat, tokens: seq<Token>, path: seq<nat>)
    requires Ordered(dom)
  {
    && |path| == |tokens| + 1
    && (tokens != [] && tokens[0].Relative? ==> path[0] == context)
    && forall i :: 0 <= i < |tokens| ==>
      match tokens[i]
      case Filter(f) => path[i] == path[i + 1] && (f, path[i + 1]) in dom.holds
      case Relative(c) => path[i] in Related(dom, c, path[i + 1])
  }

  lemma {:induction false} ChainSelects(dom: Dom, context: nat, tokens: seq<Token>, path: seq<nat>)
    requires Ordered(dom) && Chain(dom, context, tokens, path)
    ensures Selects(dom, context, tokens, path[|tokens|])
    decreases |tokens|
  {
    if tokens != [] {
      var n := |tokens| - 1;
      assert tokens[n].Filter? || path[n] in Related(dom, tokens[n].c, path[n + 1]);
      ChainSelects(dom, context, tokens[..n], path[..n + 1]);
    }
  }

  lemma {:induction false} SelectsChain(dom: Dom, context: nat, tokens: seq<Token>, e: nat) returns (path: seq<nat>)
    requires Ordered(dom) && Selects(dom, context, tokens, e)
    ensures Chain(dom, context, tokens, path) && path[|tokens|] == e
    decreases |tokens|
  {
    if tokens == [] {
      path := [e];
    } else {
      var n := |tokens| - 1;
      var a := e;
      if tokens[n].Relative? {
        if n == 0 { return [context, e]; }
        a :| a in Related(dom, tokens[n].c, e) && Selects(dom, context, tokens[..n], a);
      }
      var left := SelectsChain(dom, context, tokens[..n], a);
      path := left + [e];
      Longer(dom, context, tokens, left, e);
    }
  }

  lemma Longer(dom: Dom, context: nat, tokens: seq<Token>, left: seq<nat>, e: nat)
    requires Ordered(dom) && tokens != [] && Chain(dom, context, tokens[..|tokens| - 1], left)
    requires |tokens| > 1 || tokens[0].Filter?
    requires match tokens[|tokens| - 1]
             case Filter(f) => left[|tokens| - 1] == e && (f, e) in dom.holds
             case Relative(c) => left[|tokens| - 1] in Related(dom, c, e)
    ensures Chain(dom, context, tokens, left + [e])
  {
    hide Related;
    var n := |tokens| - 1;
    forall i | 0 <= i < |tokens| ensures
      match tokens[i]
      case Filter(f) => (left + [e])[i] == (left + [e])[i + 1] && (f, (left + [e])[i + 1]) in dom.holds
      case Relative(c) => (left + [e])[i] in Related(dom, c, (left + [e])[i + 1])
    {
      if i < n { assert tokens[..n][i] == tokens[i]; }
    }
  }

  /** A token list selects e exactly if there is such a chain of elements that ends at e. */
  lemma SelectsIffChain(dom: Dom, context: nat, tokens: seq<Token>, e: nat)
    requires Ordered(dom)
    ensures Selects(dom, context, tokens, e) <==> exists path :: Chain(dom, context, tokens, path) && path[|tokens|] == e
  {
    if Selects(dom, context, tokens, e) { var path := SelectsChain(dom, context, tokens, e); }
    if path :| Chain(dom, context, tokens, path) && path[|tokens|] == e { ChainSelects(dom, context, tokens, path); }
  }

  // ----- compiled closures -----

  datatype Matcher =
    | Undefined                                          // no matcher yet
    | IsContext(context: nat)                            // elem === context
    | Single(f: nat)
    | Both(higher: Matcher, f: nat)                      // addMatcher
    | Combined(name: nat, c: Combinator, inner: Matcher) // addCombinator

  /** One round of matcherFromTokens; name is the next value of `done`. */
  function Extend(m: Matcher, t: Token, context: nat, name: nat): Matcher {
    match t
    case Relative(c) => Combined(name, c, if m.Undefined? then IsContext(context) else m)
    case Filter(f) => if m.Undefined? then Single(f) else Both(m, f)
  }

  /** What a matcher means, without any memory. */
  ghost predicate Means(dom: Dom, m: Matcher, e: nat)
    requires Ordered(dom)
    decreases m
  {
    match m
    case Undefined => true
    case IsContext(context) => e == context
    case Single(f) => (f, e) in dom.holds
    case Both(higher, f) => (f, e) in dom.holds && Means(dom, higher, e)
    case Combined(_, c, inner) => exists a :: a in Related(dom, c, e) && Means(dom, inner, a)
  }

  /** Compilation of a whole token list, the combinators named from `name` on. */
  function Compiled(tokens: seq<Token>, context: nat, name: nat): (r: (Matcher, nat))
    ensures name <= r.1
    decreases |tokens|
  {
    if tokens == [] then (Undefined, name)
    else
      var (m, next) := Compiled(tokens[..|tokens| - 1], context, name);
      var t := tokens[|tokens| - 1];
      (Extend(m, t, context, next), if t.Relative? then next + 1 else next)
  }

  lemma {:induction false} CompiledMeans(dom: Dom, tokens: seq<Token>, context: nat, name: nat, e: nat)
    requires Ordered(dom)
    ensures Compiled(tokens, context, name).0.Undefined? <==> tokens == []
    ensures Means(dom, Compiled(tokens, context, name).0, e) <==> Selects(dom, context, tokens, e)
    decreases |tokens|
  {
    if tokens != [] {
      var left := tokens[..|tokens| - 1];
      forall a ensures Means(dom, Compiled(left, context, name).0, a) <==> Selects(dom, context, left, a) {
        CompiledMeans(dom, left, context, name, a);
      }
      CompiledMeans(dom, left, context, name, e);
    }
  }

  /** The combinators of a matcher, by name. */
  function Combs(m: Matcher): map<nat, (Combinator, Matcher)> {
    match m
    case Undefined => map[]
    case IsContext(_) => map[]
    case Single(_) => map[]
    case Both(higher, _) => Combs(higher)
    case Combined(name, c, inner) => Combs(inner)[name := (c, inner)]
  }

  /** Names grow from left to right, so no two combinators of a matcher share one. */
  ghost predicate Named(m: Matcher, lo: nat, hi: nat) {
    match m
    case Undefined => true
    case IsContext(_) => true
    case Single(_) => true
    case Both(higher, _) => Named(higher, lo, hi)
    case Combined(name, _, inner) => lo <= name < hi && Named(inner, lo, name)
  }

  lemma {:induction false} CompiledNamed(tokens: seq<Token>, context: nat, name: nat)
    ensures Named(Compiled(tokens, context, name).0, name, Compiled(tokens, context, name).1)
    decreases |tokens|
  {
    if tokens != [] { CompiledNamed(tokens[..|tokens| - 1], context, name); }
  }

  lemma NamedCombs(m: Matcher, lo: nat, hi: nat)
    requires Named(m, lo, hi)
    ensures forall n :: n in Combs(m) ==> lo <= n < hi
  {
    if m.Combined? { NamedCombs(m.inner, lo, m.name); }
    else if m.Both? { NamedCombs(m.higher, lo, hi); }
  }
}
