/** Event namespaces: the pattern built from the requested names finds exactly the handlers that have them all. */
module Namespaces {

  // ----- the regular expressions in use -----

  datatype Re = Caret | Dollar | Chr(c: char) | Dot | Nothing | Cat(a: Re, b: Re) | Or(a: Re, b: Re) | Star(a: Re)

  predicate LineEnd(c: char) {
    c in "\n\r\U{2028}\U{2029}"
  }

  /** re matches s from i to j. */
  ghost predicate M(re: Re, s: string, i: int, j: int)
    decreases re, j - i
  {
    0 <= i <= j <= |s| &&
    match re
    case Caret => i == j == 0
    case Dollar => i == j == |s|
    case Chr(c) => j == i + 1 && s[i] == c
    case Dot => j == i + 1 && !LineEnd(s[i])
    case Nothing => i == j
    case Cat(a, b) => exists k :: i <= k <= j && M(a, s, i, k) && M(b, s, k, j)
    case Or(a, b) => M(a, s, i, j) || M(b, s, i, j)
    case Star(a) => i == j || exists k :: i < k <= j && M(a, s, i, k) && M(Star(a), s, k, j)
  }

  /** RegExp.prototype.test */
  ghost predicate Test(re: Re, s: string) {
    exists i, j :: M(re, s, i, j)
  }

  /** The text s as a regular expression. */
  function Literal(s: string): Re
    requires forall k :: 0 <= k < |s| ==> !Meta(s[k])
  {
    if s == "" then Nothing else Cat(Chr(s[0]), Literal(s[1..]))
  }

  // ----- names -----

  /** A namespace as it comes out of splitting at dots. */
  predicate Name(n: string) {
    n != "" && forall k :: 0 <= k < |n| ==> n[k] != '.' && !LineEnd(n[k])
  }

  predicate Names(ns: seq<string>) {
    forall k :: 0 <= k < |ns| ==> Name(ns[k])
  }

  /** Characters that mean something other than themselves in the text of a regular expression. */
  predicate Meta(c: char) {
    c in "\\^$.|?*+()[]{}"
  }

  /** A name that may be asked for: the source puts it into the text of a regular expression as it is. */
  predicate Plain(n: string) {
    Name(n) && forall k :: 0 <= k < |n| ==> !Meta(n[k])
  }

  predicate Plains(ns: seq<string>) {
    forall k :: 0 <= k < |ns| ==> Plain(ns[k])
  }

  /** The namespaces of a handler, and those asked for by remove or by an event. */
  type OwnNames = ns: seq<string> | Names(ns) witness []
  type AskedNames = ns: seq<string> | Plains(ns) witness []

  function Join(ns: seq<string>): string {
    if ns == [] then "" else if |ns| == 1 then ns[0] else ns[0] + "." + Join(ns[1..])
  }

  const GAP := Cat(Chr('.'), Or(Cat(Star(Dot), Chr('.')), Nothing))
  const EDGE := Or(Chr('.'), Dollar)

  /** The names joined by \.(?:.*\.|), up to the final (\.|$). */
  function Body(req: seq<string>): Re
    requires req != [] && Plains(req)
  {
    if |req| == 1 then Cat(Literal(req[0]), EDGE)
    else Cat(Literal(req[0]), Cat(GAP, Body(req[1..])))
  }

  function Pattern(req: seq<string>): Re
    requires req != [] && Plains(req)
  {
    Cat(Or(Caret, Chr('.')), Body(req))
  }

  // ----- what the pattern looks for, in positions -----

  lemma CatSplit(a: Re, b: Re, s: string, i: int, j: int) returns (k: int)
    requires M(Cat(a, b), s, i, j)
    ensures i <= k <= j && M(a, s, i, k) && M(b, s, k, j)
  {
    k :| i <= k <= j && M(a, s, i, k) && M(b, s, k, j);
  }

  lemma CatJoin(a: Re, b: Re, s: string, i: int, k: int, j: int)
    requires M(a, s, i, k) && M(b, s, k, j)
    ensures M(Cat(a, b), s, i, j)
  {
  }

  lemma OrMeans(a: Re, b: Re, s: string, i: int, j: int)
    ensures M(Or(a, b), s, i, j) <==> M(a, s, i, j) || M(b, s, i, j)
  {
  }

  lemma EdgeMeans(s: string, i: int, j: int)
    ensures M(EDGE, s, i, j) <==> Ends(s, i) && j == if i == |s| then i else i + 1
  {
    OrMeans(Chr('.'), Dollar, s, i, j);
  }

  lemma {:induction false} LiteralMeans(n: string, s: string, i: int, j: int)
    requires forall k :: 0 <= k < |n| ==> !Meta(n[k])
    ensures M(Literal(n), s, i, j) <==> 0 <= i <= j <= |s| && s[i..j] == n
    decreases |n|
  {
    if n != "" {
      forall k ensures M(Literal(n[1..]), s, k, j) <==> 0 <= k <= j <= |s| && s[k..j] == n[1..] {
        LiteralMeans(n[1..], s, k, j);
      }
      if 0 <= i < j <= |s| {
        assert s[i..j] == [s[i]] + s[i + 1..j];
        assert M(Chr(n[0]), s, i, i + 1) <==> s[i] == n[0];
      }
    }
  }

  /** No line end from i to j. */
  ghost predicate OneLine(s: string, i: int, j: int) {
    0 <= i <= j <= |s| && forall k :: i <= k < j ==> !LineEnd(s[k])
  }

  lemma {:induction false} StarDotMeans(s: string, i: int, j: int)
    ensures M(Star(Dot), s, i, j) <==> OneLine(s, i, j)
    decreases j - i
  {
    if 0 <= i < j <= |s| {
      StarDotMeans(s, i + 1, j);
      assert M(Dot, s, i, i + 1) <==> !LineEnd(s[i]);
    }
  }

  /** i is where a component of s begins. */
  predicate Starts(s: string, i: int) {
    0 <= i <= |s| && (i == 0 || s[i - 1] == '.')
  }

  /** A component ends at i. */
  predicate Ends(s: string, i: int) {
    0 <= i <= |s| && (i == |s| || s[i] == '.')
  }

  lemma GapMeans(s: string, i: int, j: int)
    requires OneLine(s, 0, |s|)
    ensures M(GAP, s, i, j) <==> 0 <= i < j <= |s| && s[i] == '.' && Starts(s, j)
  {
    var inner := Cat(Star(Dot), Chr('.'));
    var opt := Or(inner, Nothing);
    if M(GAP, s, i, j) {
      var k := CatSplit(Chr('.'), opt, s, i, j);
      OrMeans(inner, Nothing, s, k, j);
      if M(inner, s, k, j) {
        var l := CatSplit(Star(Dot), Chr('.'), s, k, j);
      }
    }
    if 0 <= i < j <= |s| && s[i] == '.' && Starts(s, j) {
      if j > i + 1 {
        StarDotMeans(s, i + 1, j - 1);
        CatJoin(Star(Dot), Chr('.'), s, i + 1, j - 1, j);
      }
      OrMeans(inner, Nothing, s, i + 1, j);
      CatJoin(Chr('.'), opt, s, i, i + 1, j);
    }
  }

  /** From i on, s has the names req as whole components, in this order. */
  ghost predicate FoundFrom(req: seq<string>, s: string, i: int)
    requires req != []
    decreases |req|, 0
  {
    var e := i + |req[0]|;
    && 0 <= i && e <= |s| && s[i..e] == req[0]
    && if |req| == 1 then Ends(s, e)
       else e < |s| && s[e] == '.' && FoundLater(req[1..], s, e)
  }

  ghost predicate FoundLater(req: seq<string>, s: string, e: int)
    requires req != []
    decreases |req|, 1
  {
    exists p :: Next(e, p) && Starts(s, p) && FoundFrom(req, s, p)
  }

  predicate Next(e: int, p: int) {
    e < p
  }

  lemma MatchFrom(re: Re, s: string, i: int, j: int)
    requires M(re, s, i, j)
    ensures Test(re, s)
  {
  }

  lemma {:induction false} BodySound(req: seq<string>, s: string, i: int, j: int)
    requires req != [] && Plains(req) && OneLine(s, 0, |s|) && M(Body(req), s, i, j)
    ensures FoundFrom(req, s, i)
    decreases |req|
  {
    var lit, tail := Literal(req[0]), if |req| == 1 then EDGE else Cat(GAP, Body(req[1..]));
    var k := CatSplit(lit, tail, s, i, j);
    LiteralMeans(req[0], s, i, k);
    if |req| == 1 {
      EdgeMeans(s, k, j);
    } else {
      var p := CatSplit(GAP, Body(req[1..]), s, k, j);
      GapMeans(s, k, p);
      BodySound(req[1..], s, p, j);
      assert Next(k, p);
    }
  }

  lemma {:induction false} BodyComplete(req: seq<string>, s: string, i: int) returns (j: int)
    requires req != [] && Plains(req) && OneLine(s, 0, |s|) && FoundFrom(req, s, i)
    ensures M(Body(req), s, i, j)
    decreases |req|
  {
    var e := i + |req[0]|;
    var lit, tail := Literal(req[0]), if |req| == 1 then EDGE else Cat(GAP, Body(req[1..]));
    LiteralMeans(req[0], s, i, e);
    if |req| == 1 {
      j := if e == |s| then e else e + 1;
      EdgeMeans(s, e, j);
    } else {
      var p :| Next(e, p) && Starts(s, p) && FoundFrom(req[1..], s, p);
      j := BodyComplete(req[1..], s, p);
      GapMeans(s, e, p);
      CatJoin(GAP, Body(req[1..]), s, e, p, j);
    }
    CatJoin(lit, tail, s, i, e, j);
  }

  /** Some component of s begins a match. */
  ghost predicate Found(req: seq<string>, s: string)
    requires req != []
  {
    exists i :: Starts(s, i) && FoundFrom(req, s, i)
  }

  lemma PatternMeans(req: seq<string>, s: string)
    requires req != [] && Plains(req) && OneLine(s, 0, |s|)
    ensures Test(Pattern(req), s) <==> Found(req, s)
  {
    var lead := Or(Caret, Chr('.'));
    if Test(Pattern(req), s) {
      var h, j :| M(Pattern(req), s, h, j);
      var i := CatSplit(lead, Body(req), s, h, j);
      OrMeans(Caret, Chr('.'), s, h, i);
      BodySound(req, s, i, j);
      assert Starts(s, i);
    }
    if Found(req, s) {
      var i :| Starts(s, i) && FoundFrom(req, s, i);
      var j := BodyComplete(req, s, i);
      var h := if i == 0 then 0 else i - 1;
      OrMeans(Caret, Chr('.'), s, h, i);
      CatJoin(lead, Body(req), s, h, i, j);
      MatchFrom(Pattern(req), s, h, j);
    }
  }

  // ----- positions and components -----

  /** Components req[0], req[1], ... occur in ns in this order. */
  ghost predicate Within(req: seq<string>, ns: seq<string>)
    decreases |ns|
  {
    req == [] || (ns != [] && (Within(req, ns[1..]) || (ns[0] == req[0] && Within(req[1..], ns[1..]))))
  }

  lemma JoinFirst(ns: seq<string>)
    requires ns != [] && Names(ns)
    ensures var s, n := Join(ns), |ns[0]|;
      && n <= |s| && s[..n] == ns[0] && Ends(s, n)
      && (forall k :: 0 <= k < n ==> s[k] != '.')
      && (|ns| > 1 ==> n < |s| && s[n] == '.' && s[n + 1..] == Join(ns[1..]))
      && (|ns| == 1 ==> n == |s|)
  {
  }

  lemma {:induction false} JoinIsOneLine(ns: seq<string>)
    requires Names(ns)
    ensures OneLine(Join(ns), 0, |Join(ns)|)
  {
    if |ns| > 1 {
      JoinIsOneLine(ns[1..]);
      var s, n := Join(ns), |ns[0]|;
      JoinFirst(ns);
      forall k | 0 <= k < |s| ensures !LineEnd(s[k]) {
        if k > n { assert s[k] == s[n + 1..][k - n - 1]; } else if k < n { assert s[k] == s[..n][k]; }
      }
    }
  }

  lemma SuffixPositions(s: string, d: int, t: string)
    requires 0 <= d <= |s| && t == s[d..] && (d > 0 ==> s[d - 1] == '.')
    ensures forall p :: 0 <= p ==> (Starts(t, p) <==> Starts(s, d + p))
    ensures forall p :: 0 <= p ==> (Ends(t, p) <==> Ends(s, d + p))
    ensures forall p, e :: 0 <= p <= e <= |t| ==> t[p..e] == s[d + p..d + e]
  {
  }

  /** FoundFrom looks at s from i on only. */
  lemma {:induction false} FoundSuffix(req: seq<string>, s: string, d: int, i: int)
    requires req != [] && 0 <= d <= |s| && 0 <= i
    requires d > 0 ==> s[d - 1] == '.'
    ensures FoundFrom(req, s[d..], i) <==> FoundFrom(req, s, d + i)
    decreases |req|, 0
  {
    var t, e := s[d..], i + |req[0]|;
    SuffixPositions(s, d, t);
    assert e <= |t| ==> t[i..e] == s[d + i..d + e];
    if e < |t| && |req| > 1 {
      hide Starts, Ends;
      LaterInSuffix(req[1..], s, d, t, e);
    }
  }

  lemma LaterInSuffix(req: seq<string>, s: string, d: int, t: string, e: int)
    requires req != [] && 0 <= d <= |s| && t == s[d..] && 0 <= e
    requires d > 0 ==> s[d - 1] == '.'
    ensures FoundLater(req, t, e) <==> FoundLater(req, s, d + e)
    decreases |req|, 1
  {
    SuffixPositions(s, d, t);
    hide FoundFrom, Starts, Ends;
    if FoundLater(req, t, e) {
      var p :| Next(e, p) && Starts(t, p) && FoundFrom(req, t, p);
      FoundSuffix(req, s, d, p);
      assert Next(d + e, d + p) && Starts(s, d + p);
    }
    if FoundLater(req, s, d + e) {
      var p :| Next(d + e, p) && Starts(s, p) && FoundFrom(req, s, p);
      FoundSuffix(req, s, d, p - d);
      assert Starts(t, p - d) && Next(e, p - d);
    }
  }

  /** Being found at some component of the joined names is to be contained, in order. */
  lemma {:induction false} FoundIffWithin(req: seq<string>, ns: seq<string>)
    requires req != [] && Names(req) && Names(ns)
    ensures Found(req, Join(ns)) <==> Within(req, ns)
    decreases |ns|, 1
  {
    if ns != [] {
      var s, n := Join(ns), |ns[0]|;
      JoinFirst(ns);
      FoundFirst(req, ns);
      if |ns| > 1 {
        FoundIffWithin(req, ns[1..]);
        ShiftFound(req, s, n + 1);
      }
      assert Within(req, ns) <==> Within(req, ns[1..]) || FoundFrom(req, s, 0);
      if i :| Starts(s, i) && FoundFrom(req, s, i) {
        if i > 0 { assert i > n; }
      }
      if FoundFrom(req, s, 0) { assert Starts(s, 0); }
    }
  }

  /** What is found from d on, is found in the suffix. */
  lemma ShiftFound(req: seq<string>, s: string, d: int)
    requires req != [] && 0 < d <= |s| && s[d - 1] == '.'
    ensures (exists i :: i >= d && Starts(s, i) && FoundFrom(req, s, i)) <==> (exists i :: Starts(s[d..], i) && FoundFrom(req, s[d..], i))
  {
    if i :| i >= d && Starts(s, i) && FoundFrom(req, s, i) {
      FoundSuffix(req, s, d, i - d);
      assert Starts(s[d..], i - d);
    }
    if i :| Starts(s[d..], i) && FoundFrom(req, s[d..], i) {
      FoundSuffix(req, s, d, i);
      assert Starts(s, d + i);
    }
  }

  /** Found right at the beginning: the first names agree and the others follow. */
  lemma {:induction false} FoundFirst(req: seq<string>, ns: seq<string>)
    requires req != [] && Names(req) && Names(ns) && ns != []
    ensures FoundFrom(req, Join(ns), 0) <==> ns[0] == req[0] && Within(req[1..], ns[1..])
    decreases |ns|, 0
  {
    var s, n, e := Join(ns), |ns[0]|, |req[0]|;
    JoinFirst(ns);
    SameFirst(req[0], ns);
    if ns[0] == req[0] && |req| > 1 {
      if |ns| > 1 {
        FoundIffWithin(req[1..], ns[1..]);
        ShiftFound(req[1..], s, n + 1);
      }
      if p :| Next(n, p) && Starts(s, p) && FoundFrom(req[1..], s, p) { assert p >= n + 1; }
    }
  }

  lemma SameFirst(a: string, ns: seq<string>)
    requires Name(a) && Names(ns) && ns != []
    ensures var s := Join(ns); |a| <= |s| && s[..|a|] == a && Ends(s, |a|) <==> ns[0] == a
  {
    var s, n := Join(ns), |ns[0]|;
    JoinFirst(ns);
    if |a| <= |s| && s[..|a|] == a && Ends(s, |a|) {
      assert forall k :: 0 <= k < |a| ==> a[k] == s[k];
    }
  }

  // ----- sorted names -----

  /** The default order of Array.prototype.sort. */
  predicate Leq(a: string, b: string)
    decreases |a|
  {
    a == "" || (b != "" && (a[0] < b[0] || (a[0] == b[0] && Leq(a[1..], b[1..]))))
  }

  lemma {:induction false} LeqIsTotalOrder(a: string, b: string, c: string)
    ensures Leq(a, b) || Leq(b, a)
    ensures Leq(a, b) && Leq(b, a) ==> a == b
    ensures Leq(a, b) && Leq(b, c) ==> Leq(a, c)
    decreases |a|
  {
    if a != "" && b != "" {
      LeqIsTotalOrder(a[1..], b[1..], if c == "" then "" else c[1..]);
      assert a == [a[0]] + a[1..] && b == [b[0]] + b[1..];
    }
  }

  ghost predicate Sorted(ns: seq<string>) {
    forall i, j :: 0 <= i < j < |ns| ==> Leq(ns[i], ns[j])
  }

  function Insert(x: string, ns: seq<string>): seq<string> {
    if ns == [] || Leq(x, ns[0]) then [x] + ns else [ns[0]] + Insert(x, ns[1..])
  }

  function Sort(ns: seq<string>): seq<string> {
    if ns == [] then [] else Insert(ns[0], Sort(ns[1..]))
  }

  lemma {:induction false} InsertSorts(x: string, ns: seq<string>)
    requires Sorted(ns)
    ensures Sorted(Insert(x, ns)) && multiset(Insert(x, ns)) == multiset(ns) + multiset{x}
  {
    if ns == [] {
    } else if Leq(x, ns[0]) {
      forall k | 0 <= k < |ns| ensures Leq(x, ns[k]) {
        if k > 0 { LeqIsTotalOrder(x, ns[0], ns[k]); }
      }
    } else {
      InsertSorts(x, ns[1..]);
      LeqIsTotalOrder(x, ns[0], "");
      var r := Insert(x, ns[1..]);
      assert ns == [ns[0]] + ns[1..];
      forall k | 0 <= k < |r| ensures Leq(ns[0], r[k]) {
        assert r[k] in multiset(r);
        assert r[k] in ns[1..] || r[k] == x;
      }
    }
  }

  lemma {:induction false} SortSorts(ns: seq<string>)
    ensures Sorted(Sort(ns)) && multiset(Sort(ns)) == multiset(ns)
  {
    if ns != [] {
      SortSorts(ns[1..]);
      InsertSorts(ns[0], Sort(ns[1..]));
      assert ns == [ns[0]] + ns[1..];
    }
  }

  lemma {:induction false} WithinIsSubMultiset(req: seq<string>, ns: seq<string>)
    requires Within(req, ns)
    ensures multiset(req) <= multiset(ns)
    decreases |ns|
  {
    if req != [] {
      assert ns == [ns[0]] + ns[1..] && req == [req[0]] + req[1..];
      if Within(req, ns[1..]) { WithinIsSubMultiset(req, ns[1..]); } else { WithinIsSubMultiset(req[1..], ns[1..]); }
    }
  }

  /** For sorted lists the converse holds as well. */
  lemma {:induction false} SortedSubMultisetIsWithin(req: seq<string>, ns: seq<string>)
    requires Sorted(req) && Sorted(ns) && multiset(req) <= multiset(ns)
    ensures Within(req, ns)
    decreases |ns|
  {
    if req != [] {
      assert req[0] in multiset(req);
      if ns[0] == req[0] {
        DropBoth(req, ns);
        SortedSubMultisetIsWithin(req[1..], ns[1..]);
      } else {
        FirstIsSmaller(req, ns);
        DropFirst(req, ns);
        SortedSubMultisetIsWithin(req, ns[1..]);
      }
    }
  }

  lemma DropBoth(req: seq<string>, ns: seq<string>)
    requires req != [] && ns != [] && req[0] == ns[0] && multiset(req) <= multiset(ns)
    ensures multiset(req[1..]) <= multiset(ns[1..])
  {
    assert ns == [ns[0]] + ns[1..] && req == [req[0]] + req[1..];
    forall x ensures multiset(req[1..])[x] <= multiset(ns[1..])[x] {
      assert multiset(req)[x] <= multiset(ns)[x];
    }
  }

  lemma DropFirst(req: seq<string>, ns: seq<string>)
    requires ns != [] && ns[0] !in req && multiset(req) <= multiset(ns)
    ensures multiset(req) <= multiset(ns[1..])
  {
    assert ns == [ns[0]] + ns[1..];
    assert multiset(req)[ns[0]] == 0;
    forall x ensures multiset(req)[x] <= multiset(ns[1..])[x] {
      assert multiset(req)[x] <= multiset(ns)[x];
    }
  }

  lemma FirstIsSmaller(req: seq<string>, ns: seq<string>)
    requires Sorted(req) && Sorted(ns) && multiset(req) <= multiset(ns) && req != [] && ns != [] && ns[0] != req[0]
    ensures ns[0] !in req
  {
    assert req[0] in multiset(req);
    var m :| 0 <= m < |ns| && ns[m] == req[0];
    if k :| 0 <= k < |req| && req[k] == ns[0] {
      LeqIsTotalOrder(ns[0], req[0], "");
    }
  }

  // ----- the property -----

  /**
   The filter of event.remove and dispatch: a handler passes exactly when it has
   every requested namespace, as often as requested.
   */
  lemma NamespaceFilter(requested: AskedNames, own: OwnNames)
    requires requested != []
    ensures Sort(requested) != [] && Plains(Sort(requested))
    ensures Test(Pattern(Sort(requested)), Join(Sort(own))) <==> multiset(requested) <= multiset(own)
  {
    SortSorts(requested);
    SortSorts(own);
    var req, ns := Sort(requested), Sort(own);
    SamePlains(requested, req);
    SameNames(own, ns);
    assert |multiset(req)| == |multiset(requested)|;
    JoinIsOneLine(ns);
    PatternMeans(req, Join(ns));
    FoundIffWithin(req, ns);
    if Within(req, ns) { WithinIsSubMultiset(req, ns); }
    if multiset(req) <= multiset(ns) { SortedSubMultisetIsWithin(req, ns); }
  }

  lemma SameNames(ns: seq<string>, sorted: seq<string>)
    requires Names(ns) && multiset(sorted) == multiset(ns)
    ensures Names(sorted)
  {
    forall k | 0 <= k < |sorted| ensures Name(sorted[k]) { assert sorted[k] in multiset(ns); }
  }

  lemma SamePlains(ns: seq<string>, sorted: seq<string>)
    requires Plains(ns) && multiset(sorted) == multiset(ns)
    ensures Plains(sorted)
  {
    forall k | 0 <= k < |sorted| ensures Plain(sorted[k]) { assert sorted[k] in multiset(ns); }
  }

  // ----- names that are not plain -----

  /** What the source builds for the name "a+b": (^|\.)a+b(\.|$), where a+ is one or more times a. */
  const PLUS := Cat(Or(Caret, Chr('.')), Cat(Cat(Chr('a'), Star(Chr('a'))), Cat(Chr('b'), EDGE)))

  /** A handler in the namespace "a+b" is not found by asking for "a+b". */
  lemma MetaNameIsMissed()
    ensures Name("a+b") && !Plain("a+b") && !Test(PLUS, "a+b")
  {
    var s := "a+b";
    assert s[1] == '+' && Meta(s[1]);
    var manyA := Cat(Chr('a'), Star(Chr('a')));
    var bEnd := Cat(Chr('b'), EDGE);
    forall i, j ensures !M(PLUS, s, i, j) {
      if M(PLUS, s, i, j) {
        var k := CatSplit(Or(Caret, Chr('.')), Cat(manyA, bEnd), s, i, j);
        var l := CatSplit(manyA, bEnd, s, k, j);
        var m := CatSplit(Chr('a'), Star(Chr('a')), s, k, l);
        StarOfA(s, m, l);
        var e := CatSplit(Chr('b'), EDGE, s, l, j);
      }
    }
  }

  lemma StarOfA(s: string, i: int, j: int)
    requires s == "a+b" && i == 1
    ensures M(Star(Chr('a')), s, i, j) ==> j == i
  {
    assert s[1] == '+';
    if M(Star(Chr('a')), s, i, j) && i != j { var k := StarSplit(Chr('a'), s, i, j); }
  }

  lemma StarSplit(a: Re, s: string, i: int, j: int) returns (k: int)
    requires M(Star(a), s, i, j) && i != j
    ensures i < k <= j && M(a, s, i, k) && M(Star(a), s, k, j)
  {
    k :| i < k <= j && M(a, s, i, k) && M(Star(a), s, k, j);
  }
}
