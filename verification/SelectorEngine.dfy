/**
 Sizzle's matchers at work: searches along parents and previous siblings are
 memoised by stamping a key and a verdict on the nodes they pass. Node stamps
 outlive passes, selectors and changes of the document.
 */
module SelectorEngine {
  import opened Prelude
  import opened Selectors
  import opened StampKeys

  /** What a key on a node says. */
  datatype Stamp = Stamp(name: nat, dirruns: nat, runs: nat)

  /** A compiled selector group with its own counters; source and names: what it was compiled from. */
  datatype Group = Group(matchers: seq<Matcher>, context: nat, source: seq<seq<Token>>, names: seq<nat>,
                         runs: nat, dirruns: nat)

  /** The stamps and verdicts on all nodes. */
  datatype Memo = Memo(stamps: map<nat, Stamp>, sizset: map<nat, bool>)

  type CombTable = map<nat, (Combinator, Matcher)>

  predicate Verdict(memo: Memo, n: nat) {
    n in memo.sizset && memo.sizset[n]
  }

  ghost predicate Any(dom: Dom, m: Matcher, s: seq<nat>)
    requires Ordered(dom)
  {
    exists a :: a in s && Means(dom, m, a)
  }

  /** n carries a stamp of this pass by a combinator of the table. */
  predicate Current(memo: Memo, combs: CombTable, d: nat, n: nat) {
    n in memo.stamps && memo.stamps[n].name in combs && memo.stamps[n].dirruns == d
  }

  /** The verdict beside a stamp of this pass is the meaning of the stamping combinator's matcher. */
  ghost predicate Correct(dom: Dom, combs: CombTable, memo: Memo, d: nat, n: nat)
    requires Ordered(dom)
  {
    Current(memo, combs, d, n) ==> Verdict(memo, n) == Means(dom, combs[memo.stamps[n].name].1, n)
  }

  /** A stamp of the current run belongs to a search that failed at n and everywhere beyond. */
  ghost predicate FailedTail(dom: Dom, combs: CombTable, memo: Memo, d: nat, r: nat, n: nat)
    requires Ordered(dom)
  {
    Current(memo, combs, d, n) && memo.stamps[n].runs == r ==>
      var (c, inner) := combs[memo.stamps[n].name];
      !Verdict(memo, n) && !Any(dom, inner, Walk(dom, c.dir, n))
  }

  ghost predicate CorrectBelow(dom: Dom, combs: CombTable, memo: Memo, d: nat, bound: int)
    requires Ordered(dom)
  {
    forall n: nat :: Pos(dom, n) < bound ==> Correct(dom, combs, memo, d, n)
  }

  ghost predicate TailsBelow(dom: Dom, combs: CombTable, memo: Memo, d: nat, r: nat, bound: int)
    requires Ordered(dom)
  {
    forall n: nat :: Pos(dom, n) < bound ==> FailedTail(dom, combs, memo, d, r, n)
  }

  /** The stamps of the table's combinators are of this pass or earlier ones. */
  ghost predicate NotLater(combs: CombTable, memo: Memo, d: nat) {
    forall n :: n in memo.stamps && memo.stamps[n].name in combs ==> memo.stamps[n].dirruns <= d
  }

  /** Nothing at or after position bound differs. */
  ghost predicate SameFrom(dom: Dom, a: Memo, b: Memo, bound: int) {
    forall n: nat :: Pos(dom, n) >= bound ==>
      && (n in a.stamps <==> n in b.stamps) && (n in a.stamps ==> a.stamps[n] == b.stamps[n])
      && Verdict(a, n) == Verdict(b, n)
  }

  ghost predicate Within(m: Matcher, combs: CombTable) {
    match m
    case Undefined => true
    case IsContext(_) => true
    case Single(_) => true
    case Both(higher, _) => Within(higher, combs)
    case Combined(name, c, inner) => name in combs && combs[name] == (c, inner) && Within(inner, combs)
  }

  /** The key rendering of every stamp. */
  ghost predicate Keyed(expando: map<nat, string>, stamps: map<nat, Stamp>) {
    && expando.Keys == stamps.Keys
    && forall n :: n in stamps ==> expando[n] == CachedKey(stamps[n].name, stamps[n].dirruns, stamps[n].runs)
  }

  lemma WithinCombined(m: Matcher, combs: CombTable)
    requires Within(m, combs) && m.Combined?
    ensures m.name in combs && combs[m.name] == (m.c, m.inner) && Within(m.inner, combs)
  {
  }

  lemma RelatedMeans(dom: Dom, name: nat, c: Combinator, inner: Matcher, e: nat)
    requires Ordered(dom) && !c.first
    ensures Means(dom, Combined(name, c, inner), e) == Any(dom, inner, Walk(dom, c.dir, e))
  {
  }

  /** The state of one search that started at e and has come to cur. */
  ghost predicate Searching(dom: Dom, combs: CombTable, memo: Memo, d: nat, r: nat, name: nat, e: nat, cur: nat)
    requires Ordered(dom) && name in combs
  {
    var (c, inner) := combs[name];
    && Pos(dom, cur) <= Pos(dom, e)
    && CorrectBelow(dom, combs, memo, d, Pos(dom, e))
    && TailsBelow(dom, combs, memo, d, r, Pos(dom, cur))
    && Any(dom, inner, Walk(dom, c.dir, e)) == Any(dom, inner, Walk(dom, c.dir, cur))
    && forall n: nat :: Pos(dom, cur) <= Pos(dom, n) < Pos(dom, e) ==>
      FailedTail(dom, combs, memo, d, r, n) || Trailing(dom, combs, memo, d, r, name, cur, n)
  }

  /** n was passed by the running search: its tail fails if the rest of the search does. */
  ghost predicate Trailing(dom: Dom, combs: CombTable, memo: Memo, d: nat, r: nat, name: nat, cur: nat, n: nat)
    requires Ordered(dom) && name in combs
  {
    var (c, inner) := combs[name];
    && n in memo.stamps && memo.stamps[n] == Stamp(name, d, r)
    && !Verdict(memo, n)
    && (Any(dom, inner, Walk(dom, c.dir, n)) ==> Any(dom, inner, Walk(dom, c.dir, cur)))
  }

  /** The rest of the search fails, so it has failed, and every node it passed heads a failed tail. */
  lemma SearchFails(dom: Dom, combs: CombTable, memo: Memo, d: nat, r: nat, name: nat, e: nat, cur: nat)
    requires Ordered(dom) && name in combs && Searching(dom, combs, memo, d, r, name, e, cur)
    requires !Any(dom, combs[name].1, Walk(dom, combs[name].0.dir, cur))
    ensures TailsBelow(dom, combs, memo, d, r, Pos(dom, e))
    ensures !Any(dom, combs[name].1, Walk(dom, combs[name].0.dir, e))
  {
    hide Means, Walk;
    forall n: nat | Pos(dom, n) < Pos(dom, e)
      ensures FailedTail(dom, combs, memo, d, r, n)
    {
    }
  }

  /** A node stamped in this run by the same combinator: it heads a failed tail, so the search fails. */
  lemma HitSameRun(dom: Dom, combs: CombTable, memo: Memo, d: nat, r: nat, name: nat, e: nat, cur: nat, p: nat)
    requires Ordered(dom) && name in combs && Searching(dom, combs, memo, d, r, name, e, cur)
    requires Next(dom, combs[name].0.dir, cur) == Some(p) && p in dom.elements
    requires p in memo.stamps && memo.stamps[p] == Stamp(name, d, r)
    ensures !Verdict(memo, p) && Finished(dom, combs, memo, d, r, name, e, false)
  {
    WalkStep(dom, combs[name].0.dir, cur, p);
    AnyStep(dom, combs[name].1, combs[name].0.dir, cur, p);
    hide Means, Walk, Any;
    assert FailedTail(dom, combs, memo, d, r, p) && Correct(dom, combs, memo, d, p);
    SearchFails(dom, combs, memo, d, r, name, e, cur);
  }

  /** A node stamped in this pass by the same combinator: its verdict can be trusted. */
  lemma HitSamePass(dom: Dom, combs: CombTable, memo: Memo, d: nat, r: nat, name: nat, e: nat, cur: nat, p: nat)
    requires Ordered(dom) && name in combs && Searching(dom, combs, memo, d, r, name, e, cur)
    requires Next(dom, combs[name].0.dir, cur) == Some(p) && p in dom.elements
    requires p in memo.stamps && memo.stamps[p].name == name && memo.stamps[p].dirruns == d
    ensures if Verdict(memo, p) then Finished(dom, combs, memo, d, r, name, e, true)
            else Searching(dom, combs, memo, d, r, name, e, p)
  {
    WalkStep(dom, combs[name].0.dir, cur, p);
    AnyStep(dom, combs[name].1, combs[name].0.dir, cur, p);
    assert Correct(dom, combs, memo, d, p);
    hide Means, Walk, Any;
    if !Verdict(memo, p) { SearchPasses(dom, combs, memo, d, r, name, e, cur, p); }
  }

  /** A search begins at e itself. */
  lemma SearchBegins(dom: Dom, combs: CombTable, memo: Memo, d: nat, r: nat, name: nat, e: nat)
    requires Ordered(dom) && name in combs
    requires CorrectBelow(dom, combs, memo, d, Pos(dom, e)) && TailsBelow(dom, combs, memo, d, r, Pos(dom, e))
    ensures Searching(dom, combs, memo, d, r, name, e, e)
  {
  }

  /** The search passes a node that is not an element, or one already known to fail in this pass. */
  lemma SearchPasses(dom: Dom, combs: CombTable, memo: Memo, d: nat, r: nat, name: nat, e: nat, cur: nat, p: nat)
    requires Ordered(dom) && name in combs && Searching(dom, combs, memo, d, r, name, e, cur)
    requires Next(dom, combs[name].0.dir, cur) == Some(p)
    requires p !in dom.elements || !Means(dom, combs[name].1, p)
    ensures Searching(dom, combs, memo, d, r, name, e, p)
  {
    WalkStep(dom, combs[name].0.dir, cur, p);
    AnyStep(dom, combs[name].1, combs[name].0.dir, cur, p);
    hide Means, Walk, Any;
    forall n: nat | Pos(dom, p) <= Pos(dom, n) < Pos(dom, e)
      ensures FailedTail(dom, combs, memo, d, r, n) || Trailing(dom, combs, memo, d, r, name, p, n)
    {
      if Pos(dom, n) < Pos(dom, cur) {
        assert FailedTail(dom, combs, memo, d, r, n);
      }
    }
  }

  lemma WalkStep(dom: Dom, dir: Dir, cur: nat, p: nat)
    requires Ordered(dom) && Next(dom, dir, cur) == Some(p)
    ensures Walk(dom, dir, cur) == (if p in dom.elements then [p] else []) + Walk(dom, dir, p)
    ensures Pos(dom, p) < Pos(dom, cur)
  {
  }

  lemma NothingLeft(dom: Dom, m: Matcher, dir: Dir, cur: nat)
    requires Ordered(dom) && Next(dom, dir, cur) == None
    ensures !Any(dom, m, Walk(dom, dir, cur))
  {
  }

  lemma AnyStep(dom: Dom, m: Matcher, dir: Dir, cur: nat, p: nat)
    requires Ordered(dom) && Next(dom, dir, cur) == Some(p)
    ensures Any(dom, m, Walk(dom, dir, cur)) ==
      ((p in dom.elements && Means(dom, m, p)) || Any(dom, m, Walk(dom, dir, p)))
  {
    WalkStep(dom, dir, cur, p);
    hide Means;
    var rest := Walk(dom, dir, p);
    hide Walk;
    assert forall a :: a in (if p in dom.elements then [p] else []) + rest <==> (p in dom.elements && a == p) || a in rest;
  }

  /** Stamping p and then recording that it does not match moves the search to p. */
  lemma SearchRejects(dom: Dom, combs: CombTable, memo: Memo, memo2: Memo, memo3: Memo, d: nat, r: nat, name: nat,
                      e: nat, cur: nat, p: nat)
    requires Ordered(dom) && name in combs && Searching(dom, combs, memo, d, r, name, e, cur)
    requires Next(dom, combs[name].0.dir, cur) == Some(p) && p in dom.elements
    requires !Means(dom, combs[name].1, p)
    requires SameFrom(dom, memo.(stamps := memo.stamps[p := Stamp(name, d, r)]), memo2, Pos(dom, p))
    requires memo3 == memo2.(sizset := memo2.sizset[p := false])
    requires CorrectBelow(dom, combs, memo2, d, Pos(dom, p)) && TailsBelow(dom, combs, memo2, d, r, Pos(dom, p))
    ensures Searching(dom, combs, memo3, d, r, name, e, p)
  {
    WalkStep(dom, combs[name].0.dir, cur, p);
    AnyStep(dom, combs[name].1, combs[name].0.dir, cur, p);
    hide Means, Walk, Any;
    forall n: nat | Pos(dom, n) < Pos(dom, e)
      ensures Correct(dom, combs, memo3, d, n)
    {
      if n == p {
      } else if Pos(dom, n) < Pos(dom, p) {
        assert Correct(dom, combs, memo2, d, n);
      } else {
        assert Correct(dom, combs, memo, d, n);
      }
    }
    forall n: nat | Pos(dom, n) < Pos(dom, p) ensures FailedTail(dom, combs, memo3, d, r, n) {
      assert FailedTail(dom, combs, memo2, d, r, n);
    }
    forall n: nat | Pos(dom, p) <= Pos(dom, n) < Pos(dom, e)
      ensures FailedTail(dom, combs, memo3, d, r, n) || Trailing(dom, combs, memo3, d, r, name, p, n)
    {
      if n != p {
        assert FailedTail(dom, combs, memo, d, r, n) || Trailing(dom, combs, memo, d, r, name, cur, n);
      }
    }
  }

  /** Stamping p and then recording that it matches keeps every verdict correct. */
  lemma SearchAccepts(dom: Dom, combs: CombTable, memo: Memo, memo2: Memo, memo3: Memo, d: nat, r: nat, name: nat,
                      e: nat, cur: nat, p: nat)
    requires Ordered(dom) && name in combs && Searching(dom, combs, memo, d, r, name, e, cur)
    requires Next(dom, combs[name].0.dir, cur) == Some(p) && p in dom.elements
    requires Means(dom, combs[name].1, p)
    requires SameFrom(dom, memo.(stamps := memo.stamps[p := Stamp(name, d, r)]), memo2, Pos(dom, p))
    requires memo3 == memo2.(sizset := memo2.sizset[p := true])
    requires CorrectBelow(dom, combs, memo2, d, Pos(dom, p))
    ensures CorrectBelow(dom, combs, memo3, d, Pos(dom, e))
    ensures Any(dom, combs[name].1, Walk(dom, combs[name].0.dir, e))
  {
    AnyStep(dom, combs[name].1, combs[name].0.dir, cur, p);
    hide Means, Walk, Any;
    forall n: nat | Pos(dom, n) < Pos(dom, e)
      ensures Correct(dom, combs, memo3, d, n)
    {
      if n == p {
      } else if Pos(dom, n) < Pos(dom, p) {
        assert Correct(dom, combs, memo2, d, n);
      } else {
        assert Correct(dom, combs, memo, d, n);
      }
    }
  }

  /** The state before a nested match at p, right after p was stamped. */
  lemma StampedBelow(dom: Dom, combs: CombTable, memo: Memo, d: nat, r: nat, name: nat, e: nat, cur: nat, p: nat)
    requires Ordered(dom) && name in combs && Searching(dom, combs, memo, d, r, name, e, cur)
    requires Next(dom, combs[name].0.dir, cur) == Some(p)
    ensures var memo1 := memo.(stamps := memo.stamps[p := Stamp(name, d, r)]);
      CorrectBelow(dom, combs, memo1, d, Pos(dom, p)) && TailsBelow(dom, combs, memo1, d, r, Pos(dom, p))
  {
    WalkStep(dom, combs[name].0.dir, cur, p);
    hide Means, Walk, Any;
    var memo1 := memo.(stamps := memo.stamps[p := Stamp(name, d, r)]);
    forall n: nat | Pos(dom, n) < Pos(dom, p)
      ensures Correct(dom, combs, memo1, d, n) && FailedTail(dom, combs, memo1, d, r, n)
    {
      assert Correct(dom, combs, memo, d, n) && FailedTail(dom, combs, memo, d, r, n);
    }
  }

  function Stamped(memo: Memo, p: nat, t: Stamp): Memo {
    memo.(stamps := memo.stamps[p := t])
  }

  lemma StampKeyed(expando: map<nat, string>, stamps: map<nat, Stamp>, p: nat, t: Stamp)
    requires Keyed(expando, stamps)
    ensures Keyed(expando[p := CachedKey(t.name, t.dirruns, t.runs)], stamps[p := t])
  {
    hide CachedKey;
  }

  lemma StampNotLater(combs: CombTable, memo: Memo, p: nat, t: Stamp)
    requires NotLater(combs, memo, t.dirruns)
    ensures NotLater(combs, memo.(stamps := memo.stamps[p := t]), t.dirruns)
  {
  }

  lemma SameTransitive(dom: Dom, a: Memo, b: Memo, c: Memo, lo: int, hi: int)
    requires SameFrom(dom, a, b, hi) && SameFrom(dom, b, c, lo) && lo <= hi
    ensures SameFrom(dom, a, c, hi)
  {
    hide Verdict;
  }

  lemma NewTransitive(a: map<nat, Stamp>, b: map<nat, Stamp>, c: map<nat, Stamp>, combs: CombTable, d: nat, r: nat)
    requires NewStamps(a, b, combs, d, r) && NewStamps(b, c, combs, d, r)
    ensures NewStamps(a, c, combs, d, r)
  {
  }

  lemma FirstStamp(a: map<nat, Stamp>, p: nat, t: Stamp, combs: CombTable)
    requires t.name in combs
    ensures NewStamps(a, a[p := t], combs, t.dirruns, t.runs)
  {
  }

  /** Stamping p, matching there and recording the verdict touches nothing beyond p. */
  lemma TrySame(dom: Dom, memo: Memo, memo2: Memo, p: nat, t: Stamp, found: bool, bound: int)
    requires SameFrom(dom, memo.(stamps := memo.stamps[p := t]), memo2, Pos(dom, p)) && Pos(dom, p) < bound
    ensures SameFrom(dom, memo, memo2.(sizset := memo2.sizset[p := found]), bound)
  {
    var memo1 := memo.(stamps := memo.stamps[p := t]);
    var memo3 := memo2.(sizset := memo2.sizset[p := found]);
    forall n: nat | Pos(dom, n) >= bound
      ensures (n in memo.stamps <==> n in memo3.stamps) && (n in memo.stamps ==> memo.stamps[n] == memo3.stamps[n])
      ensures Verdict(memo, n) == Verdict(memo3, n)
    {
      assert n != p;
      assert Verdict(memo1, n) == Verdict(memo2, n);
    }
  }

  class Sizzle {
    var expando: map<nat, string>      // elem[ expando ]
    var sizset: map<nat, bool>         // elem.sizset
    var done: nat
    var dirruns: nat
    var cachedruns: nat
    var groups: seq<Group>             // compiled functions with their counters
    ghost var stamps: map<nat, Stamp>

    ghost function Mem(): Memo
      reads this
    {
      Memo(stamps, sizset)
    }

    /** The key texts agree with the stamps, and the stamps of the table are not from later passes. */
    ghost predicate KeysOk(combs: CombTable)
      reads this
    {
      Keyed(expando, stamps) && NotLater(combs, Mem(), dirruns)
    }

    /** m may be run on e: all that it can meet before e is in order. */
    ghost predicate Ready(dom: Dom, m: Matcher, e: nat, combs: CombTable)
      reads this
    {
      && Ordered(dom) && Within(m, combs) && KeysOk(combs)
      && CorrectBelow(dom, combs, Mem(), dirruns, Pos(dom, e))
      && TailsBelow(dom, combs, Mem(), dirruns, cachedruns, Pos(dom, e))
    }

    /** Runs a compiled matcher on e. */
    method Match(dom: Dom, m: Matcher, e: nat, ghost combs: CombTable) returns (r: bool)
      requires Ready(dom, m, e, combs)
      modifies this`expando, this`sizset, this`stamps
      ensures r == Means(dom, m, e)
      ensures KeysOk(combs) && Ran(dom, combs, old(Mem()), Mem(), dirruns, cachedruns, e, r)
      decreases m, 1
    {
      match m
      case Undefined => r := true;
      case IsContext(context) => r := e == context;
      case Single(f) => r := (f, e) in dom.holds;
      case Both(higher, f) =>
        r := (f, e) in dom.holds;
        if r { r := Match(dom, higher, e, combs); }
      case Combined(name, c, inner) =>
        if c.first { r := MatchNearest(dom, m, e, combs); } else { r := Search(dom, m, e, combs); }
    }

    /** The combinators that look at one node only. */
    method MatchNearest(dom: Dom, m: Matcher, e: nat, ghost combs: CombTable) returns (r: bool)
      requires m.Combined? && m.c.first
      requires Ready(dom, m, e, combs)
      modifies this`expando, this`sizset, this`stamps
      ensures r == Means(dom, m, e)
      ensures KeysOk(combs) && Ran(dom, combs, old(Mem()), Mem(), dirruns, cachedruns, e, r)
      decreases m, 0, 1
    {
      var cur := e;
      while true
        invariant Pos(dom, cur) <= Pos(dom, e)
        invariant Walk(dom, m.c.dir, cur) == Walk(dom, m.c.dir, e)
        invariant Mem() == old(Mem()) && expando == old(expando)
        decreases Pos(dom, cur)
      {
        var next := Next(dom, m.c.dir, cur);
        if next.None? { return false; }
        WalkStep(dom, m.c.dir, cur, next.value);
        cur := next.value;
        if cur in dom.elements {
          assert Related(dom, m.c, e) == [cur];
          NarrowBelow(dom, combs, Mem(), dirruns, cachedruns, Pos(dom, cur), Pos(dom, e));
          r := Match(dom, m.inner, cur, combs);
          WidenBelow(dom, combs, old(Mem()), Mem(), dirruns, cachedruns, Pos(dom, cur), Pos(dom, e), r);
          return;
        }
      }
    }

    /** Stamps p, runs the matcher on it and records the verdict. */
    method TryNode(dom: Dom, m: Matcher, ghost e: nat, ghost cur: nat, p: nat, ghost combs: CombTable) returns (r: bool)
      requires m.Combined? && Ordered(dom) && Within(m, combs) && KeysOk(combs)
      requires Searching(dom, combs, Mem(), dirruns, cachedruns, m.name, e, cur)
      requires Next(dom, m.c.dir, cur) == Some(p) && p in dom.elements
      modifies this`expando, this`sizset, this`stamps
      ensures KeysOk(combs)
      ensures Tried(dom, combs, old(Mem()), Mem(), dirruns, cachedruns, m.name, e, cur, p, r)
      decreases m, 0, 0
    {
      ghost var memo := Mem();
      WithinCombined(m, combs);
      hide Means, Walk, Any, Searching, Ready, KeysOk, Tried, Next, Ordered, Within, Ran;
      StampNode(dom, m, e, cur, p, combs);
      r := Match(dom, m.inner, p, combs);
      RecordVerdict(dom, e, cur, p, r, m.name, memo, combs);
    }

    /** Stamps p with the key of this pass and run; all that a match on p can meet is in order. */
    method StampNode(dom: Dom, m: Matcher, ghost e: nat, ghost cur: nat, p: nat, ghost combs: CombTable)
      requires m.Combined? && Ordered(dom) && Within(m, combs) && KeysOk(combs)
      requires Searching(dom, combs, Mem(), dirruns, cachedruns, m.name, e, cur)
      requires Next(dom, m.c.dir, cur) == Some(p) && p in dom.elements
      modifies this`expando, this`stamps
      ensures Mem() == Stamped(old(Mem()), p, Stamp(m.name, dirruns, cachedruns)) && Ready(dom, m.inner, p, combs)
    {
      WithinCombined(m, combs);
      hide Means, Walk, Any, CorrectBelow, TailsBelow, CachedKey, Within, Searching, Keyed, NotLater, Pos, Next, Ordered;
      BeforeTry(dom, combs, expando, Mem(), dirruns, cachedruns, m.name, e, cur, p);
      expando := expando[p := CachedKey(m.name, dirruns, cachedruns)];
      stamps := stamps[p := Stamp(m.name, dirruns, cachedruns)];
    }

    /** Records the verdict of the match on p, which was stamped when the memory was memo. */
    method RecordVerdict(dom: Dom, ghost e: nat, ghost cur: nat, p: nat, r: bool, ghost name: nat, ghost memo: Memo, ghost combs: CombTable)
      requires Ordered(dom) && name in combs && Searching(dom, combs, memo, dirruns, cachedruns, name, e, cur)
      requires Next(dom, combs[name].0.dir, cur) == Some(p) && p in dom.elements
      requires KeysOk(combs) && r == Means(dom, combs[name].1, p)
      requires Ran(dom, combs, Stamped(memo, p, Stamp(name, dirruns, cachedruns)), Mem(), dirruns, cachedruns, p, r)
      modifies this`sizset
      ensures KeysOk(combs) && Tried(dom, combs, memo, Mem(), dirruns, cachedruns, name, e, cur, p, r)
    {
      hide Means, Searching, Keyed, NotLater, Ran, Tried, Next, Ordered, KeysOk;
      KeysKeyed(combs);
      AfterTry(dom, combs, memo, Mem(), dirruns, cachedruns, name, e, cur, p, r);
      sizset := sizset[p := r];
      KeysOkNow(combs);
    }

    /** What the stamp on p already tells the search; nothing is changed. */
    method Consult(dom: Dom, m: Matcher, ghost e: nat, ghost cur: nat, p: nat, ghost combs: CombTable) returns (known: Known)
      requires m.Combined? && Ordered(dom) && Within(m, combs) && KeysOk(combs)
      requires Searching(dom, combs, Mem(), dirruns, cachedruns, m.name, e, cur)
      requires Next(dom, m.c.dir, cur) == Some(p) && p in dom.elements
      ensures known.Stop? ==> Finished(dom, combs, Mem(), dirruns, cachedruns, m.name, e, known.found)
      ensures known.GoOn? ==> Searching(dom, combs, Mem(), dirruns, cachedruns, m.name, e, p)
    {
      var name := m.name;
      var dirkey := DirKey(name, dirruns);
      var cachedkey := CachedKey(name, dirruns, cachedruns);
      known := Unknown;
      if p in expando {
        ghost var t := stamps[p];
        WithinCombined(m, combs);
        hide Means, Walk, Any, CorrectBelow, TailsBelow, Within, DirKey, Searching, Finished;
        if expando[p] == cachedkey {
          KeyInjective(name, dirruns, cachedruns, t.name, t.dirruns, t.runs);
          HitSameRun(dom, combs, Mem(), dirruns, cachedruns, name, e, cur, p);
          known := Stop(p in sizset && sizset[p]);
        } else if dirkey <= expando[p] {
          PrefixIsExact(name, dirruns, t.name, t.dirruns, t.runs);
          HitSamePass(dom, combs, Mem(), dirruns, cachedruns, name, e, cur, p);
          known := if p in sizset && sizset[p] then Stop(true) else GoOn;
        }
      }
    }

    /** The combinators that search all the way, with their memory on the nodes. */
    method Search(dom: Dom, m: Matcher, e: nat, ghost combs: CombTable) returns (r: bool)
      requires m.Combined? && !m.c.first
      requires Ready(dom, m, e, combs)
      modifies this`expando, this`sizset, this`stamps
      ensures r == Means(dom, m, e)
      ensures KeysOk(combs) && Ran(dom, combs, old(Mem()), Mem(), dirruns, cachedruns, e, r)
      decreases m, 0, 2
    {
      WithinCombined(m, combs);
      RelatedMeans(dom, m.name, m.c, m.inner, e);
      SearchBegins(dom, combs, Mem(), dirruns, cachedruns, m.name, e);
      assert SearchedSoFar(dom, combs, Mem(), Mem(), dirruns, cachedruns, m.name, e, e);
      hide Searching, KeysOk, Means, Walk, Any, CorrectBelow, TailsBelow;
      var cur := e;
      r := true;
      var over := false;
      while !over
        invariant KeysOk(combs)
        invariant !over ==> SearchedSoFar(dom, combs, old(Mem()), Mem(), dirruns, cachedruns, m.name, e, cur)
        invariant over ==> SearchedAll(dom, combs, old(Mem()), Mem(), dirruns, cachedruns, m.name, e, r)
        decreases !over, Pos(dom, cur)
      {
        over, r, cur := SearchStep(dom, m, e, cur, old(Mem()), combs);
      }
    }

    /** One round of the loop. */
    method SearchStep(dom: Dom, m: Matcher, ghost e: nat, cur: nat, ghost memo0: Memo, ghost combs: CombTable)
      returns (over: bool, r: bool, next: nat)
      requires m.Combined? && !m.c.first && Ordered(dom) && Within(m, combs) && KeysOk(combs)
      requires SearchedSoFar(dom, combs, memo0, Mem(), dirruns, cachedruns, m.name, e, cur)
      modifies this`expando, this`sizset, this`stamps
      ensures KeysOk(combs)
      ensures !over ==> Pos(dom, next) < Pos(dom, cur)
      ensures !over ==> SearchedSoFar(dom, combs, memo0, Mem(), dirruns, cachedruns, m.name, e, next)
      ensures over ==> SearchedAll(dom, combs, memo0, Mem(), dirruns, cachedruns, m.name, e, r)
      decreases m, 0, 1
    {
      var p := Next(dom, m.c.dir, cur);
      over, r, next := true, false, cur;
      if p.None? {
        SearchEnds(dom, combs, memo0, Mem(), dirruns, cachedruns, m, e, cur);
      } else {
        next := p.value;
        WalkStep(dom, m.c.dir, cur, next);
        WithinCombined(m, combs);
        hide Means, Walk, Any, CorrectBelow, TailsBelow, Within, Keyed, NotLater, SameFrom, NewStamps, Pos, Tried, Searching, Finished;
        if next in dom.elements {
          var known := Consult(dom, m, e, cur, next, combs);
          if known.Unknown? {
            ghost var memo := Mem();
            r := TryNode(dom, m, e, cur, next, combs);
            over := r;
            TriedMeans(dom, combs, memo0, memo, Mem(), dirruns, cachedruns, m.name, e, cur, next, r);
          } else if known.GoOn? {
            over := false;
          } else {
            r := known.found;
          }
        } else {
          SearchPasses(dom, combs, Mem(), dirruns, cachedruns, m.name, e, cur, next);
          over := false;
        }
      }
    }

    /** What holds between passes, whatever the document looked like in each. */
    ghost predicate Valid()
      reads this
    {
      && Keyed(expando, stamps)
      && (forall n :: n in stamps ==> stamps[n].name < done)
      && (forall g :: 0 <= g < |groups| ==> GroupOk(groups[g], done) && Counted(groups[g], stamps))
      && (forall g, h :: 0 <= g < h < |groups| ==> Hi(groups[g]) <= Lo(groups[h]))
    }

    constructor ()
      ensures Valid() && groups == []
    {
      expando, sizset, stamps := map[], map[], map[];
      done, dirruns, cachedruns := 0, 0, 0;
      groups := [];
    }

    /** matcherFromTokens. */
    method FromTokens(tokens: seq<Token>, context: nat) returns (m: Matcher)
      modifies this`done
      ensures (m, done) == Compiled(tokens, context, old(done))
    {
      m := Undefined;
      for i := 0 to |tokens|
        invariant (m, done) == Compiled(tokens[..i], context, old(done))
      {
        assert tokens[..i + 1][..i] == tokens[..i] && tokens[..i + 1][i] == tokens[i];
        m := Extend(m, tokens[i], context, done);
        if tokens[i].Relative? { done := done + 1; }
      }
      assert tokens[..|tokens|] == tokens;
    }

    /** Compiles a comma group. */
    method Compile(source: seq<seq<Token>>, context: nat) returns (id: nat)
      requires Valid()
      modifies this`done, this`groups
      ensures Valid() && id == old(|groups|) && |groups| == id + 1 && groups[..id] == old(groups)
      ensures groups[id].source == source && groups[id].context == context
    {
      var matchers, names := [], [done];
      for i := 0 to |source|
        invariant groups == old(groups) && stamps == old(stamps)
        invariant old(done) <= done && |matchers| == i && |names| == i + 1 && names[0] == old(done) && names[i] == done
        invariant forall j :: 0 <= j < i ==> (matchers[j], names[j + 1]) == Compiled(source[j], context, names[j])
      {
        var m := FromTokens(source[i], context);
        matchers, names := matchers + [m], names + [done];
      }
      id := |groups|;
      var g := Group(matchers, context, source, names, 0, 0);
      GroupNames(g, 0, |source|);
      groups := groups + [g];
      assert GroupOk(g, done);
      GroupNames(g, 0, |source|);
      forall h | 0 <= h < |groups| ensures GroupOk(groups[h], done) && Counted(groups[h], stamps) {
        if h < id { assert groups[h] == old(groups)[h]; }
      }
    }

    /** matcherFromGroupMatchers: does any alternative accept e? One run. */
    method MatchGroup(dom: Dom, g: Group, e: nat) returns (r: bool)
      requires Ordered(dom) && GroupOk(g, done) && KeysOk(Table(g.matchers))
      requires CorrectAll(dom, Table(g.matchers), Mem(), dirruns)
      requires TailsAll(dom, Table(g.matchers), Mem(), dirruns, cachedruns)
      modifies this`expando, this`sizset, this`stamps
      ensures r == Accepts(dom, g.context, g.source, e)
      ensures KeysOk(Table(g.matchers)) && CorrectAll(dom, Table(g.matchers), Mem(), dirruns)
      ensures NewStamps(old(stamps), stamps, Table(g.matchers), dirruns, cachedruns)
    {
      ghost var combs := Table(g.matchers);
      hide KeysOk, Ran, NewStamps, CorrectBelow, TailsBelow, CorrectAll, TailsAll, Table;
      NewNothing(stamps, combs, dirruns, cachedruns);
      for j := 0 to |g.matchers|
        invariant KeysOk(combs) && CorrectAll(dom, combs, Mem(), dirruns)
        invariant TailsAll(dom, combs, Mem(), dirruns, cachedruns)
        invariant NewStamps(old(stamps), stamps, combs, dirruns, cachedruns)
        invariant forall i :: 0 <= i < j ==> !Selects(dom, g.context, g.source[i], e)
      {
        GroupMatcher(dom, g, j, e, done);
        ghost var memo := Mem();
        AllIsBelow(dom, combs, memo, dirruns, cachedruns, Pos(dom, e));
        r := Match(dom, g.matchers[j], e, combs);
        AllAgain(dom, combs, memo, Mem(), dirruns, cachedruns, e, r);
        NewTransitive(old(stamps), memo.stamps, stamps, combs, dirruns, cachedruns);
        if r { return; }
      }
      r := false;
    }

    /** The loop of `select` over the candidate elements: one pass. */
    method Select(id: nat, dom: Dom, elements: seq<nat>) returns (results: seq<nat>)
      requires Valid() && id < |groups| && Ordered(dom)
      modifies this
      ensures Valid() && SameButCounters(old(groups), groups)
      ensures results == Accepted(dom, groups[id].context, groups[id].source, elements)
    {
      var g := groups[id];
      ghost var combs := Table(g.matchers);
      dirruns := g.dirruns;
      groups := groups[id := g.(dirruns := g.dirruns + 1)];
      PassBegins(dom, g, Mem(), done);
      assert Valid() by {
        forall h | 0 <= h < |groups| ensures GroupOk(groups[h], done) && Counted(groups[h], stamps) {
          assert GroupOk(old(groups)[h], done) && Counted(old(groups)[h], stamps);
        }
      }
      hide Valid, CorrectAll, Table, Accepts;
      results := [];
      for i := 0 to |elements|
        invariant Valid() && SameButCounters(old(groups), groups)
        invariant groups[id].dirruns == dirruns + 1
        invariant CorrectAll(dom, combs, Mem(), dirruns)
        invariant results == Accepted(dom, g.context, g.source, elements[..i])
      {
        var r := RunOn(id, dom, elements[i]);
        AcceptedSnoc(dom, g.context, g.source, elements, i);
        if r { results := results + [elements[i]]; }
      }
      assert elements[..|elements|] == elements;
    }

    /** One run: cachedruns = matcher.runs++ and the match. */
    method RunOn(id: nat, dom: Dom, e: nat) returns (r: bool)
      requires Valid() && id < |groups| && Ordered(dom)
      requires groups[id].dirruns == dirruns + 1
      requires CorrectAll(dom, Table(groups[id].matchers), Mem(), dirruns)
      modifies this`expando, this`sizset, this`stamps, this`cachedruns, this`groups
      ensures Valid() && groups == old(groups)[id := old(groups[id]).(runs := old(groups[id]).runs + 1)]
      ensures CorrectAll(dom, Table(groups[id].matchers), Mem(), dirruns)
      ensures r == Accepts(dom, groups[id].context, groups[id].source, e)
    {
      var g := groups[id];
      RunBegins(dom, g, Mem(), done, dirruns);
      cachedruns := g.runs;
      var g1 := g.(runs := g.runs + 1);
      groups := groups[id := g1];
      ghost var before := stamps;
      assert GroupOk(g1, done) by { assert GroupOk(g, done); }
      CountersUp(old(groups), groups, id, before);
      hide KeysOk, NewStamps, CorrectAll, TailsAll, Table, GroupOk, Counted, Accepts, Keyed;
      assert KeysOk(Table(g1.matchers)) by { KeysOkNow(Table(g1.matchers)); }
      r := MatchGroup(dom, g1, e);
      RunEnds(groups, id, before, stamps, done, dirruns, cachedruns);
      assert Keyed(expando, stamps) by { KeysKeyed(Table(g1.matchers)); }
    }

    lemma KeysOkNow(combs: CombTable)
      requires Keyed(expando, stamps) && NotLater(combs, Mem(), dirruns)
      ensures KeysOk(combs)
    {
    }

    lemma KeysKeyed(combs: CombTable)
      requires KeysOk(combs)
      ensures Keyed(expando, stamps) && NotLater(combs, Mem(), dirruns)
    {
    }
  }

  ghost predicate SameButCounters(a: seq<Group>, b: seq<Group>) {
    && |a| == |b|
    && forall g :: 0 <= g < |a| ==> b[g] == a[g].(runs := b[g].runs, dirruns := b[g].dirruns)
  }

  lemma CountersUp(groups: seq<Group>, next: seq<Group>, id: nat, stamps: map<nat, Stamp>)
    requires id < |groups| && next == groups[id := groups[id].(runs := groups[id].runs + 1)]
    requires forall g :: 0 <= g < |groups| ==> Counted(groups[g], stamps)
    ensures forall g :: 0 <= g < |groups| ==> Counted(next[g], stamps)
  {
    forall g | 0 <= g < |groups| ensures Counted(next[g], stamps) {
      assert Counted(groups[g], stamps);
    }
  }

  // ----- groups -----

  function Table(ms: seq<Matcher>): CombTable {
    if ms == [] then map[] else Table(ms[..|ms| - 1]) + Combs(ms[|ms| - 1])
  }

  /** The names of a group's combinators are those from Lo up to Hi. */
  function Lo(g: Group): nat { if g.names == [] then 0 else g.names[0] }

  function Hi(g: Group): nat { if g.names == [] then 0 else g.names[|g.names| - 1] }

  ghost predicate GroupOk(g: Group, done: nat) {
    && |g.matchers| == |g.source| && |g.names| == |g.source| + 1
    && (forall j :: 0 <= j < |g.source| ==> (g.matchers[j], g.names[j + 1]) == Compiled(g.source[j], g.context, g.names[j]))
    && Hi(g) <= done
  }

  /** The stamps of this group come from passes and runs that its counters have left behind. */
  ghost predicate Counted(g: Group, stamps: map<nat, Stamp>) {
    forall n :: n in stamps && Lo(g) <= stamps[n].name < Hi(g) ==> stamps[n].dirruns < g.dirruns && stamps[n].runs < g.runs
  }

  ghost predicate Accepts(dom: Dom, context: nat, source: seq<seq<Token>>, e: nat)
    requires Ordered(dom)
  {
    exists j :: 0 <= j < |source| && Selects(dom, context, source[j], e)
  }

  /** The elements that some alternative selects, in order. */
  ghost function Accepted(dom: Dom, context: nat, source: seq<seq<Token>>, elements: seq<nat>): seq<nat>
    requires Ordered(dom)
  {
    if elements == [] then []
    else
      Accepted(dom, context, source, elements[..|elements| - 1])
      + if Accepts(dom, context, source, elements[|elements| - 1]) then [elements[|elements| - 1]] else []
  }

  lemma AcceptedSnoc(dom: Dom, context: nat, source: seq<seq<Token>>, elements: seq<nat>, i: nat)
    requires Ordered(dom) && i < |elements|
    ensures Accepted(dom, context, source, elements[..i + 1])
         == Accepted(dom, context, source, elements[..i]) + if Accepts(dom, context, source, elements[i]) then [elements[i]] else []
  {
    assert elements[..i + 1][..i] == elements[..i];
  }

  /** Each element is judged alone, by whether some alternative of the group selects it. */
  lemma {:induction false} AcceptedParts(dom: Dom, context: nat, source: seq<seq<Token>>, a: seq<nat>, b: seq<nat>, e: nat)
    requires Ordered(dom)
    ensures Accepted(dom, context, source, a + b) == Accepted(dom, context, source, a) + Accepted(dom, context, source, b)
    ensures Accepted(dom, context, source, [e]) == if exists tokens :: tokens in source && Selects(dom, context, tokens, e) then [e] else []
    decreases |b|
  {
    if b == [] {
      assert a + b == a;
    } else {
      assert (a + b)[..|a + b| - 1] == a + b[..|b| - 1];
      AcceptedParts(dom, context, source, a, b[..|b| - 1], e);
    }
    assert [e][..0] == [];
    assert forall j :: 0 <= j < |source| ==> source[j] in source;
  }

  lemma {:induction false} GroupNames(g: Group, i: nat, j: nat)
    requires |g.matchers| == |g.source| && |g.names| == |g.source| + 1 && i <= j <= |g.source|
    requires forall k :: 0 <= k < |g.source| ==> (g.matchers[k], g.names[k + 1]) == Compiled(g.source[k], g.context, g.names[k])
    ensures g.names[i] <= g.names[j]
    decreases j - i
  {
    if i < j {
      GroupNames(g, i, j - 1);
      var r := Compiled(g.source[j - 1], g.context, g.names[j - 1]);
      assert g.names[j] == r.1;
    }
  }

  lemma WithinSelf(m: Matcher, lo: nat, hi: nat, combs: CombTable)
    requires Named(m, lo, hi)
    requires forall n :: n in Combs(m) ==> n in combs && combs[n] == Combs(m)[n]
    ensures Within(m, combs)
  {
    if m.Combined? {
      NamedCombs(m.inner, lo, m.name);
      WithinSelf(m.inner, lo, m.name, combs);
    }
  }

  /** The table of the first j alternatives holds exactly their combinators. */
  lemma {:induction false} TableOf(g: Group, done: nat, j: nat)
    requires GroupOk(g, done) && j <= |g.matchers|
    ensures forall n :: n in Table(g.matchers[..j]) ==> Lo(g) <= n < g.names[j]
    ensures forall i, n :: 0 <= i < j && n in Combs(g.matchers[i]) ==>
      n in Table(g.matchers[..j]) && Table(g.matchers[..j])[n] == Combs(g.matchers[i])[n]
    decreases j
  {
    if j > 0 {
      TableOf(g, done, j - 1);
      GroupNames(g, 0, j - 1);
      var t := g.source[j - 1];
      var r := Compiled(t, g.context, g.names[j - 1]);
      assert (g.matchers[j - 1], g.names[j - 1 + 1]) == r;
      CompiledNamed(t, g.context, g.names[j - 1]);
      NamedCombs(g.matchers[j - 1], g.names[j - 1], g.names[j]);
      assert g.matchers[..j][..j - 1] == g.matchers[..j - 1];
      assert g.matchers[..j][j - 1] == g.matchers[j - 1];
      var small := Table(g.matchers[..j - 1]);
      assert Table(g.matchers[..j]) == small + Combs(g.matchers[j - 1]);
      forall i, n | 0 <= i < j && n in Combs(g.matchers[i])
        ensures n in Table(g.matchers[..j]) && Table(g.matchers[..j])[n] == Combs(g.matchers[i])[n]
      {
        if i < j - 1 {
          assert n in small;
          assert n !in Combs(g.matchers[j - 1]);
        }
      }
    }
  }

  lemma GroupTable(g: Group, done: nat)
    requires GroupOk(g, done)
    ensures forall n :: n in Table(g.matchers) ==> Lo(g) <= n < Hi(g)
  {
    TableOf(g, done, |g.matchers|);
    assert g.matchers[..|g.matchers|] == g.matchers;
  }

  /** Alternative j of a group: its combinators are in the table and it means what its tokens mean. */
  lemma GroupMatcher(dom: Dom, g: Group, j: nat, e: nat, done: nat)
    requires Ordered(dom) && GroupOk(g, done) && j < |g.matchers|
    ensures Within(g.matchers[j], Table(g.matchers))
    ensures Means(dom, g.matchers[j], e) <==> Selects(dom, g.context, g.source[j], e)
  {
    TableOf(g, done, |g.matchers|);
    assert g.matchers[..|g.matchers|] == g.matchers;
    assert (g.matchers[j], g.names[j + 1]) == Compiled(g.source[j], g.context, g.names[j]);
    CompiledNamed(g.source[j], g.context, g.names[j]);
    WithinSelf(g.matchers[j], g.names[j], g.names[j + 1], Table(g.matchers));
    CompiledMeans(dom, g.source[j], g.context, g.names[j], e);
  }

  ghost predicate CorrectAll(dom: Dom, combs: CombTable, memo: Memo, d: nat)
    requires Ordered(dom)
  {
    forall n: nat :: Correct(dom, combs, memo, d, n)
  }

  ghost predicate TailsAll(dom: Dom, combs: CombTable, memo: Memo, d: nat, r: nat)
    requires Ordered(dom)
  {
    forall n: nat :: FailedTail(dom, combs, memo, d, r, n)
  }

  lemma AllIsBelow(dom: Dom, combs: CombTable, memo: Memo, d: nat, r: nat, bound: int)
    requires Ordered(dom) && CorrectAll(dom, combs, memo, d) && TailsAll(dom, combs, memo, d, r)
    ensures CorrectBelow(dom, combs, memo, d, bound) && TailsBelow(dom, combs, memo, d, r, bound)
  {
    hide Correct, FailedTail;
  }

  lemma AllAgain(dom: Dom, combs: CombTable, a: Memo, b: Memo, d: nat, r: nat, e: nat, found: bool)
    requires Ordered(dom) && CorrectAll(dom, combs, a, d) && TailsAll(dom, combs, a, d, r)
    requires Ran(dom, combs, a, b, d, r, e, found)
    ensures CorrectAll(dom, combs, b, d) && (!found ==> TailsAll(dom, combs, b, d, r))
    ensures NewStamps(a.stamps, b.stamps, combs, d, r)
  {
    hide Means, Walk, Any;
    forall n: nat
      ensures Correct(dom, combs, b, d, n) && (!found ==> FailedTail(dom, combs, b, d, r, n))
    {
      if Pos(dom, n) >= Pos(dom, e) {
        assert Correct(dom, combs, a, d, n) && FailedTail(dom, combs, a, d, r, n);
      }
    }
  }

  lemma NewNothing(a: map<nat, Stamp>, combs: CombTable, d: nat, r: nat)
    ensures NewStamps(a, a, combs, d, r)
  {
  }

  /** A pass begins with a number that no stamp of the group carries, whatever the document is now. */
  lemma PassBegins(dom: Dom, g: Group, memo: Memo, done: nat)
    requires Ordered(dom) && GroupOk(g, done) && Counted(g, memo.stamps)
    ensures CorrectAll(dom, Table(g.matchers), memo, g.dirruns)
  {
    GroupTable(g, done);
  }

  /** A run begins with a number that no stamp of the group carries. */
  lemma RunBegins(dom: Dom, g: Group, memo: Memo, done: nat, d: nat)
    requires Ordered(dom) && GroupOk(g, done) && Counted(g, memo.stamps) && g.dirruns == d + 1
    ensures TailsAll(dom, Table(g.matchers), memo, d, g.runs)
    ensures NotLater(Table(g.matchers), memo, d)
  {
    GroupTable(g, done);
  }

  /** After a run every group's counters are ahead of its stamps again. */
  lemma RunEnds(groups: seq<Group>, id: nat, before: map<nat, Stamp>, after: map<nat, Stamp>, done: nat, d: nat, r: nat)
    requires id < |groups| && groups[id].runs == r + 1 && groups[id].dirruns == d + 1
    requires forall g :: 0 <= g < |groups| ==> GroupOk(groups[g], done)
    requires forall g, h :: 0 <= g < h < |groups| ==> Hi(groups[g]) <= Lo(groups[h])
    requires forall g :: 0 <= g < |groups| ==> Counted(groups[g], before)
    requires forall n :: n in before ==> before[n].name < done
    requires NewStamps(before, after, Table(groups[id].matchers), d, r)
    ensures forall g :: 0 <= g < |groups| ==> Counted(groups[g], after)
    ensures forall n :: n in after ==> after[n].name < done
  {
    GroupTable(groups[id], done);
    forall g | 0 <= g < |groups| ensures Counted(groups[g], after) {
      assert GroupOk(groups[id], done) && Counted(groups[g], before);
    }
  }

  /** What running a matcher on e does to the nodes. */
  ghost predicate Ran(dom: Dom, combs: CombTable, a: Memo, b: Memo, d: nat, r: nat, e: nat, found: bool)
    requires Ordered(dom)
  {
    && SameFrom(dom, a, b, Pos(dom, e))
    && CorrectBelow(dom, combs, b, d, Pos(dom, e))
    && (!found ==> TailsBelow(dom, combs, b, d, r, Pos(dom, e)))
    && NewStamps(a.stamps, b.stamps, combs, d, r)
  }

  /** What a stamp says: nothing, the answer to the whole search, or to walk on. */
  datatype Known = Unknown | Stop(found: bool) | GoOn

  /** The search from e is decided. */
  ghost predicate Finished(dom: Dom, combs: CombTable, memo: Memo, d: nat, r: nat, name: nat, e: nat, found: bool)
    requires Ordered(dom)
  {
    name in combs ==>
      && found == Any(dom, combs[name].1, Walk(dom, combs[name].0.dir, e))
      && CorrectBelow(dom, combs, memo, d, Pos(dom, e))
      && (!found ==> TailsBelow(dom, combs, memo, d, r, Pos(dom, e)))
  }

  /** TryNode's effect: a decision, or the search moved to p. */
  ghost predicate Tried(dom: Dom, combs: CombTable, a: Memo, b: Memo, d: nat, r: nat, name: nat, e: nat, cur: nat, p: nat, found: bool)
    requires Ordered(dom)
  {
    name in combs ==>
      && SameFrom(dom, a, b, Pos(dom, cur)) && NewStamps(a.stamps, b.stamps, combs, d, r)
      && (if found then Finished(dom, combs, b, d, r, name, e, true)
          else Searching(dom, combs, b, d, r, name, e, p))
  }

  ghost predicate SearchedSoFar(dom: Dom, combs: CombTable, a: Memo, b: Memo, d: nat, r: nat, name: nat, e: nat, cur: nat)
    requires Ordered(dom)
  {
    name in combs && SameFrom(dom, a, b, Pos(dom, e)) && NewStamps(a.stamps, b.stamps, combs, d, r)
    && Searching(dom, combs, b, d, r, name, e, cur)
  }

  ghost predicate SearchedAll(dom: Dom, combs: CombTable, a: Memo, b: Memo, d: nat, r: nat, name: nat, e: nat, found: bool)
    requires Ordered(dom)
  {
    name in combs && SameFrom(dom, a, b, Pos(dom, e)) && NewStamps(a.stamps, b.stamps, combs, d, r)
    && Finished(dom, combs, b, d, r, name, e, found)
  }

  lemma SearchEnds(dom: Dom, combs: CombTable, memo0: Memo, memo: Memo, d: nat, r: nat, m: Matcher, e: nat, cur: nat)
    requires m.Combined? && Ordered(dom) && Within(m, combs) && Next(dom, m.c.dir, cur) == None
    requires SearchedSoFar(dom, combs, memo0, memo, d, r, m.name, e, cur)
    ensures SearchedAll(dom, combs, memo0, memo, d, r, m.name, e, false)
  {
    NothingLeft(dom, m.inner, m.c.dir, cur);
    SearchFails(dom, combs, memo, d, r, m.name, e, cur);
  }

  lemma TriedMeans(dom: Dom, combs: CombTable, memo0: Memo, a: Memo, b: Memo, d: nat, r: nat, name: nat, e: nat, cur: nat, p: nat, found: bool)
    requires Ordered(dom) && SearchedSoFar(dom, combs, memo0, a, d, r, name, e, cur)
    requires Tried(dom, combs, a, b, d, r, name, e, cur, p, found)
    ensures if found then SearchedAll(dom, combs, memo0, b, d, r, name, e, true)
            else SearchedSoFar(dom, combs, memo0, b, d, r, name, e, p)
  {
    hide Means, Walk, Any, CorrectBelow, TailsBelow;
    SameTransitive(dom, memo0, a, b, Pos(dom, cur), Pos(dom, e));
    NewTransitive(memo0.stamps, a.stamps, b.stamps, combs, d, r);
  }

  lemma BeforeTry(dom: Dom, combs: CombTable, expando: map<nat, string>, memo: Memo, d: nat, r: nat, name: nat, e: nat, cur: nat, p: nat)
    requires Ordered(dom) && name in combs && Searching(dom, combs, memo, d, r, name, e, cur)
    requires Next(dom, combs[name].0.dir, cur) == Some(p) && p in dom.elements
    requires Keyed(expando, memo.stamps) && NotLater(combs, memo, d)
    ensures var memo1 := memo.(stamps := memo.stamps[p := Stamp(name, d, r)]);
      && Keyed(expando[p := CachedKey(name, d, r)], memo1.stamps) && NotLater(combs, memo1, d)
      && CorrectBelow(dom, combs, memo1, d, Pos(dom, p)) && TailsBelow(dom, combs, memo1, d, r, Pos(dom, p))
  {
    hide Means, Walk, Any, CorrectBelow, TailsBelow, CachedKey, Keyed, NotLater;
    var t := Stamp(name, d, r);
    StampedBelow(dom, combs, memo, d, r, name, e, cur, p);
    StampKeyed(expando, memo.stamps, p, t);
    StampNotLater(combs, memo, p, t);
  }

  lemma AfterTry(dom: Dom, combs: CombTable, memo: Memo, memo2: Memo, d: nat, r: nat, name: nat, e: nat, cur: nat, p: nat, found: bool)
    requires Ordered(dom) && name in combs && Searching(dom, combs, memo, d, r, name, e, cur)
    requires Next(dom, combs[name].0.dir, cur) == Some(p) && p in dom.elements
    requires Ran(dom, combs, memo.(stamps := memo.stamps[p := Stamp(name, d, r)]), memo2, d, r, p, found)
    requires NotLater(combs, memo2, d)
    requires found == Means(dom, combs[name].1, p)
    ensures var memo3 := memo2.(sizset := memo2.sizset[p := found]);
      Tried(dom, combs, memo, memo3, d, r, name, e, cur, p, found) && NotLater(combs, memo3, d)
  {
    WalkStep(dom, combs[name].0.dir, cur, p);
    hide Means, Walk, Any, CorrectBelow, TailsBelow, NewStamps, SameFrom, Searching;
    var t := Stamp(name, d, r);
    var memo3 := memo2.(sizset := memo2.sizset[p := found]);
    FirstStamp(memo.stamps, p, t, combs);
    NewTransitive(memo.stamps, memo.stamps[p := t], memo2.stamps, combs, d, r);
    TrySame(dom, memo, memo2, p, t, found, Pos(dom, cur));
    if found {
      SearchAccepts(dom, combs, memo, memo2, memo3, d, r, name, e, cur, p);
    } else {
      SearchRejects(dom, combs, memo, memo2, memo3, d, r, name, e, cur, p);
    }
  }

  /** Stamps that a match added are its own: of a combinator of the table, this pass and this run. */
  ghost predicate NewStamps(a: map<nat, Stamp>, b: map<nat, Stamp>, combs: CombTable, d: nat, r: nat) {
    forall n :: n in b && !(n in a && a[n] == b[n]) ==> b[n].name in combs && b[n].dirruns == d && b[n].runs == r
  }

  lemma NarrowBelow(dom: Dom, combs: CombTable, memo: Memo, d: nat, r: nat, lo: int, hi: int)
    requires Ordered(dom) && lo <= hi
    requires CorrectBelow(dom, combs, memo, d, hi) && TailsBelow(dom, combs, memo, d, r, hi)
    ensures CorrectBelow(dom, combs, memo, d, lo) && TailsBelow(dom, combs, memo, d, r, lo)
  {
    hide Correct, FailedTail;
  }

  /** A match at position lo leaves the nodes from lo on as they were. */
  lemma WidenBelow(dom: Dom, combs: CombTable, a: Memo, b: Memo, d: nat, r: nat, lo: int, hi: int, found: bool)
    requires Ordered(dom) && lo <= hi && SameFrom(dom, a, b, lo)
    requires CorrectBelow(dom, combs, a, d, hi) && TailsBelow(dom, combs, a, d, r, hi)
    requires CorrectBelow(dom, combs, b, d, lo) && (!found ==> TailsBelow(dom, combs, b, d, r, lo))
    ensures SameFrom(dom, a, b, hi)
    ensures CorrectBelow(dom, combs, b, d, hi) && (!found ==> TailsBelow(dom, combs, b, d, r, hi))
  {
    hide Means, Walk, Any;
    forall n: nat | Pos(dom, n) < hi
      ensures Correct(dom, combs, b, d, n) && (!found ==> FailedTail(dom, combs, b, d, r, n))
    {
      if Pos(dom, n) >= lo {
        assert Correct(dom, combs, a, d, n) && FailedTail(dom, combs, a, d, r, n);
      } else {
        assert Correct(dom, combs, b, d, n);
      }
    }
  }
}
