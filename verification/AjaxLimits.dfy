/** When a registered converter is a false value, the conversion loop may insert types for ever. */
module AjaxLimits {
  import opened Prelude
  import opened AjaxConvert

  /** The type inserted on the way from prev to cur. */
  function Onward<V>(table: seq<Entry<V>>, prev: string, cur: string): Option<string> {
    if prev == ANY || prev == cur then None else Seek(table, prev, cur).via
  }

  /** The type reached after n insertions on the way to cur. */
  function Walk<V>(table: seq<Entry<V>>, prev: string, cur: string, n: nat): Option<string> {
    if n == 0 then Some(prev)
    else
      var w := Walk(table, prev, cur, n - 1);
      if w.None? then None else Onward(table, w.value, cur)
  }

  function After<V>(table: seq<Entry<V>>, throws: bool, s: State<V>, n: nat): State<V> {
    if n == 0 then s else Iterate(table, throws, After(table, throws, s, n - 1))
  }

  /** The loop is about to visit cur, with rest behind it. */
  ghost predicate Visiting<V>(s: State<V>, cur: string, rest: seq<string>) {
    s.outcome.None? && s.i + 1 < |s.types| && s.types[s.i + 1..] == [cur] + rest
  }

  /** The loop has ended or got past cur. */
  ghost predicate Past<V>(s: State<V>, rest: seq<string>) {
    s.outcome.Some? || |s.types| - s.i - 1 <= |rest|
  }

  // ----- the loop at one listed type, with the data it carries -----

  /** The type the data has, and the data. */
  datatype Leg<V> = Leg(at: string, v: V)

  /** A visit of cur: another type is inserted before it, the loop is over, or cur is passed. */
  datatype Visit<V> = Inserted(leg: Leg<V>) | Over | Passed(v: V)

  function VisitOf<V>(table: seq<Entry<V>>, leg: Leg<V>, cur: string): Visit<V> {
    if leg.at == ANY || leg.at == cur then Passed(leg.v)
    else
      var p := Seek(table, leg.at, cur);
      if p.conv.Off? then Over
      else
        var o := if p.conv.Same? then Value(leg.v) else p.conv.f(leg.v);
        if o.Throws? then Over
        else if p.via.Some? then Inserted(Leg(p.via.value, o.value))
        else Passed(o.value)
  }

  /** Where the data is after n insertions before cur; None: there are not so many. */
  function Legs<V>(table: seq<Entry<V>>, leg: Leg<V>, cur: string, n: nat): Option<Leg<V>> {
    if n == 0 then Some(leg)
    else
      var l := Legs(table, leg, cur, n - 1);
      if l.Some? && VisitOf(table, l.value, cur).Inserted? then Some(VisitOf(table, l.value, cur).leg) else None
  }

  function LegOf<V>(s: State<V>): Leg<V> {
    Leg(s.prev, s.response)
  }

  /** An insertion takes two iterations, after which the loop is before cur again. */
  lemma InsertTwice<V>(table: seq<Entry<V>>, throws: bool, s: State<V>, cur: string, rest: seq<string>)
    requires WellKeyed(table) && cur != "" && cur != ANY && Visiting(s, cur, rest)
    requires VisitOf(table, LegOf(s), cur).Inserted?
    ensures var t := Iterate(table, throws, s);
      && !Past(t, rest)
      && var u := Iterate(table, throws, t); Visiting(u, cur, rest) && LegOf(u) == VisitOf(table, LegOf(s), cur).leg
  {
    var p := Seek(table, s.prev, cur);
    var t := Iterate(table, throws, s);
    assert t.types[t.i + 1..] == [p.via.value, cur] + rest;
    assert t.types[t.i + 2..] == [cur] + rest;
  }

  /** Any other visit ends the loop or passes cur. */
  lemma VisitPasses<V>(table: seq<Entry<V>>, throws: bool, s: State<V>, cur: string, rest: seq<string>)
    requires cur != "" && cur != ANY && Visiting(s, cur, rest) && !VisitOf(table, LegOf(s), cur).Inserted?
    ensures var u := Iterate(table, throws, s); var w := VisitOf(table, LegOf(s), cur);
      && Past(u, rest)
      && if w.Over? then u.outcome.Some?
         else u.outcome.None? && LegOf(u) == Leg(cur, w.v) && u.i < |u.types| && u.types[u.i + 1..] == rest
  {
    assert |s.types[s.i + 1..]| == 1 + |rest|;
    assert s.types[s.i + 2..] == s.types[s.i + 1..][1..] == rest;
  }

  lemma {:induction false} LockStep<V>(table: seq<Entry<V>>, throws: bool, s: State<V>, cur: string, rest: seq<string>, n: nat)
    requires WellKeyed(table) && cur != "" && cur != ANY && Visiting(s, cur, rest)
    requires Legs(table, LegOf(s), cur, n).Some?
    ensures var t := After(table, throws, s, 2 * n); Visiting(t, cur, rest) && Some(LegOf(t)) == Legs(table, LegOf(s), cur, n)
    ensures forall m: nat :: m <= 2 * n ==> !Past(After(table, throws, s, m), rest)
  {
    hide Iterate, VisitOf, WellKeyed;
    if n == 0 {
      assert |s.types[s.i + 1..]| == 1 + |rest|;
    } else {
      LockStep(table, throws, s, cur, rest, n - 1);
      var t := After(table, throws, s, 2 * n - 2);
      InsertTwice(table, throws, t, cur, rest);
      assert After(table, throws, s, 2 * n - 1) == Iterate(table, throws, t);
      var u := After(table, throws, s, 2 * n);
      assert u == Iterate(table, throws, Iterate(table, throws, t));
      assert |u.types[u.i + 1..]| == 1 + |rest|;
    }
  }

  // ----- a walk longer than the table never ends -----

  function Inputs<V>(table: seq<Entry<V>>): set<string> {
    set k | 0 <= k < |table| :: table[k].from
  }

  lemma {:induction false} FewInputs<V>(table: seq<Entry<V>>)
    ensures |Inputs(table)| <= |table|
  {
    if table != [] {
      var n := |table| - 1;
      FewInputs(table[..n]);
      assert Inputs(table) == Inputs(table[..n]) + {table[n].from} by {
        assert forall k :: 0 <= k < n ==> table[..n][k] == table[k];
      }
    }
  }

  lemma WalkOnInputs<V>(table: seq<Entry<V>>, prev: string, cur: string, n: nat)
    requires n > 0 && Walk(table, prev, cur, n).Some?
    ensures Walk(table, prev, cur, n).value in Inputs(table)
  {
    var w := Walk(table, prev, cur, n - 1).value;
    assert table[PairFrom(table, w, cur, 0)].from in Inputs(table);
  }

  lemma {:induction false} WalkPrefix<V>(table: seq<Entry<V>>, prev: string, cur: string, m: nat, n: nat)
    requires m <= n && Walk(table, prev, cur, n).Some?
    ensures Walk(table, prev, cur, m).Some?
    decreases n - m
  {
    if m < n { WalkPrefix(table, prev, cur, m + 1, n); }
  }

  /** The types reached after 1, ..., n insertions. */
  function Reaches<V>(table: seq<Entry<V>>, prev: string, cur: string, n: nat): set<string> {
    if n == 0 then {}
    else Reaches(table, prev, cur, n - 1) + (if Walk(table, prev, cur, n).Some? then {Walk(table, prev, cur, n).value} else {})
  }

  ghost predicate At<V>(table: seq<Entry<V>>, prev: string, cur: string, n: nat, x: string) {
    Walk(table, prev, cur, n) == Some(x)
  }

  lemma {:induction false} ReachesMember<V>(table: seq<Entry<V>>, prev: string, cur: string, n: nat, x: string)
    ensures x in Reaches(table, prev, cur, n) <==> exists m: nat :: 0 < m <= n && At(table, prev, cur, m, x)
  {
    hide Walk;
    if n > 0 {
      ReachesMember(table, prev, cur, n - 1, x);
      assert x in Reaches(table, prev, cur, n) <==> x in Reaches(table, prev, cur, n - 1) || At(table, prev, cur, n, x);
    }
  }

  /** Either the first n types reached are all different, or one comes back. */
  lemma {:induction false} RepeatOrMany<V>(table: seq<Entry<V>>, prev: string, cur: string, n: nat)
    requires Walk(table, prev, cur, n).Some?
    ensures |Reaches(table, prev, cur, n)| == n || Repeats(table, prev, cur, n)
  {
    if n > 0 {
      RepeatOrMany(table, prev, cur, n - 1);
      if Repeats(table, prev, cur, n - 1) {
        var a: nat, b: nat :| 0 < a < b <= n - 1 && Walk(table, prev, cur, a) == Walk(table, prev, cur, b);
        assert Repeats(table, prev, cur, n);
      } else {
        var x := Walk(table, prev, cur, n).value;
        ReachesMember(table, prev, cur, n - 1, x);
        if x in Reaches(table, prev, cur, n - 1) {
          var m: nat :| 0 < m <= n - 1 && At(table, prev, cur, m, x);
          assert Repeats(table, prev, cur, n);
        }
      }
    }
  }

  ghost predicate Repeats<V>(table: seq<Entry<V>>, prev: string, cur: string, n: nat) {
    exists a: nat, b: nat :: 0 < a < b <= n && Walk(table, prev, cur, a) == Walk(table, prev, cur, b)
  }

  lemma {:induction false} ReachesInputs<V>(table: seq<Entry<V>>, prev: string, cur: string, n: nat)
    ensures Reaches(table, prev, cur, n) <= Inputs(table)
  {
    if n > 0 {
      ReachesInputs(table, prev, cur, n - 1);
      if Walk(table, prev, cur, n).Some? { WalkOnInputs(table, prev, cur, n); }
    }
  }

  lemma WalkStep<V>(table: seq<Entry<V>>, prev: string, cur: string, n: nat)
    requires n > 0
    ensures Walk(table, prev, cur, n) ==
      var w := Walk(table, prev, cur, n - 1); if w.None? then None else Onward(table, w.value, cur)
  {
  }

  lemma {:induction false} WalkOnFrom<V>(table: seq<Entry<V>>, prev: string, cur: string, a: nat, b: nat, d: nat)
    requires Walk(table, prev, cur, a) == Walk(table, prev, cur, b)
    ensures Walk(table, prev, cur, a + d) == Walk(table, prev, cur, b + d)
  {
    hide Walk, Onward;
    if d > 0 {
      WalkOnFrom(table, prev, cur, a, b, d - 1);
      WalkStep(table, prev, cur, a + d);
      WalkStep(table, prev, cur, b + d);
    }
  }

  lemma LongWalkRepeats<V>(table: seq<Entry<V>>, prev: string, cur: string)
    requires Walk(table, prev, cur, |table| + 1).Some?
    ensures Repeats(table, prev, cur, |table| + 1)
  {
    hide Walk;
    var m := |table| + 1;
    RepeatOrMany(table, prev, cur, m);
    ReachesInputs(table, prev, cur, m);
    FewInputs(table);
    SubsetSize(Reaches(table, prev, cur, m), Inputs(table));
  }

  lemma {:induction false} LongWalkIsEndless<V>(table: seq<Entry<V>>, prev: string, cur: string, n: nat)
    requires Walk(table, prev, cur, |table| + 1).Some?
    ensures Walk(table, prev, cur, n).Some?
    decreases n
  {
    var m := |table| + 1;
    hide Walk, Onward;
    if n <= m {
      WalkPrefix(table, prev, cur, n, m);
    } else {
      LongWalkRepeats(table, prev, cur);
      var a: nat, b: nat :| 0 < a < b <= m && Walk(table, prev, cur, a) == Walk(table, prev, cur, b);
      LongWalkIsEndless(table, prev, cur, n - (b - a));
      WalkOnFrom(table, prev, cur, a, b, n - b);
    }
  }

  lemma SubsetSize(a: set<string>, b: set<string>)
    requires a <= b
    ensures |a| <= |b|
  {
    if a != {} {
      var x :| x in a;
      SubsetSize(a - {x}, b - {x});
    }
  }

  // ----- the exact condition -----

  /** After n insertions a converter throws that would lead to one more. */
  ghost predicate ThrowsAt<V>(table: seq<Entry<V>>, leg: Leg<V>, cur: string, n: nat) {
    var l := Legs(table, leg, cur, n);
    l.Some? && Onward(table, l.value.at, cur).Some? && VisitOf(table, l.value, cur).Over?
  }

  ghost predicate ThrowsOnTheWay<V>(table: seq<Entry<V>>, leg: Leg<V>, cur: string) {
    exists n: nat :: ThrowsAt(table, leg, cur, n)
  }

  /** As long as nothing throws, the data walks with the types. */
  lemma {:induction false} LegsWalk<V>(table: seq<Entry<V>>, leg: Leg<V>, cur: string, n: nat)
    requires forall m: nat :: m < n ==> !ThrowsAt(table, leg, cur, m)
    ensures Legs(table, leg, cur, n).Some? <==> Walk(table, leg.at, cur, n).Some?
    ensures Legs(table, leg, cur, n).Some? ==> Walk(table, leg.at, cur, n) == Some(Legs(table, leg, cur, n).value.at)
  {
    if n > 0 {
      LegsWalk(table, leg, cur, n - 1);
      assert !ThrowsAt(table, leg, cur, n - 1);
    }
  }

  /** The insertions before cur end after n of them. */
  ghost predicate StopsAt<V>(table: seq<Entry<V>>, leg: Leg<V>, cur: string, n: nat) {
    Legs(table, leg, cur, n).Some? && !VisitOf(table, Legs(table, leg, cur, n).value, cur).Inserted?
  }

  lemma {:induction false} LastLeg<V>(table: seq<Entry<V>>, leg: Leg<V>, cur: string, m: nat) returns (n: nat)
    requires Legs(table, leg, cur, m).None?
    ensures n < m && StopsAt(table, leg, cur, n)
  {
    hide VisitOf;
    if Legs(table, leg, cur, m - 1).Some? { n := m - 1; } else { n := LastLeg(table, leg, cur, m - 1); }
  }

  /** They end exactly if the types do so within |table| insertions, or a converter throws on the way. */
  lemma StopsIff<V>(table: seq<Entry<V>>, leg: Leg<V>, cur: string)
    ensures (exists n: nat :: StopsAt(table, leg, cur, n)) <==>
      Walk(table, leg.at, cur, |table| + 1).None? || ThrowsOnTheWay(table, leg, cur)
  {
    hide Walk, Legs, VisitOf, Onward;
    if ThrowsOnTheWay(table, leg, cur) {
      var n: nat :| ThrowsAt(table, leg, cur, n);
      assert StopsAt(table, leg, cur, n);
    } else {
      LegsWalk(table, leg, cur, |table| + 1);
      if Walk(table, leg.at, cur, |table| + 1).None? {
        var n := LastLeg(table, leg, cur, |table| + 1);
      } else {
        forall n: nat ensures !StopsAt(table, leg, cur, n) {
          LongWalkIsEndless(table, leg.at, cur, n + 1);
          LegsWalk(table, leg, cur, n + 1);
          NotStopped(table, leg, cur, n);
        }
      }
    }
  }

  lemma NotStopped<V>(table: seq<Entry<V>>, leg: Leg<V>, cur: string, n: nat)
    requires Legs(table, leg, cur, n + 1).Some?
    ensures !StopsAt(table, leg, cur, n)
  {
  }

  /**
   For any table: the loop ends or gets past cur if and only if the types inserted
   on the way stop within |table| insertions, or a converter throws on the way.
   */
  lemma LoopGetsPastIff<V>(table: seq<Entry<V>>, throws: bool, s: State<V>, cur: string, rest: seq<string>)
    requires WellKeyed(table) && cur != "" && cur != ANY && Visiting(s, cur, rest)
    ensures (exists n: nat :: Past(After(table, throws, s, n), rest)) <==>
      Walk(table, s.prev, cur, |table| + 1).None? || ThrowsOnTheWay(table, LegOf(s), cur)
  {
    hide Past, Visiting, WellKeyed, Iterate, Walk, ThrowsOnTheWay, VisitOf;
    StopsIff(table, LegOf(s), cur);
    if n: nat :| StopsAt(table, LegOf(s), cur, n) {
      LockStep(table, throws, s, cur, rest, n);
      VisitPasses(table, throws, After(table, throws, s, 2 * n), cur, rest);
      assert Past(After(table, throws, s, 2 * n + 1), rest);
    } else {
      forall n: nat ensures !Past(After(table, throws, s, n), rest) {
        AlwaysLegs(table, LegOf(s), cur, n);
        LockStep(table, throws, s, cur, rest, n);
      }
    }
  }

  lemma {:induction false} AlwaysLegs<V>(table: seq<Entry<V>>, leg: Leg<V>, cur: string, n: nat)
    requires forall m: nat :: !StopsAt(table, leg, cur, m)
    ensures Legs(table, leg, cur, n).Some?
  {
    hide VisitOf;
    if n > 0 {
      AlwaysLegs(table, leg, cur, n - 1);
      assert !StopsAt(table, leg, cur, n - 1);
    }
  }

  // ----- the whole list -----

  /** Every listed type is passed, up to the end of the list or the first conversion that is missing or throws. */
  ghost predicate Ends<V>(table: seq<Entry<V>>, leg: Leg<V>, types: seq<string>)
    decreases |types|
  {
    types == [] || types[0] == "" ||
    (if types[0] == ANY then Ends(table, leg, types[1..])
     else exists n: nat :: StopsAt(table, leg, types[0], n) && EndsAfter(table, leg, types, n))
  }

  ghost predicate EndsAfter<V>(table: seq<Entry<V>>, leg: Leg<V>, types: seq<string>, n: nat)
    requires types != [] && Legs(table, leg, types[0], n).Some?
    decreases |types|, 0
  {
    var w := VisitOf(table, Legs(table, leg, types[0], n).value, types[0]);
    w.Over? || (w.Passed? && Ends(table, Leg(types[0], w.v), types[1..]))
  }

  ghost predicate Finishes<V>(table: seq<Entry<V>>, throws: bool, s: State<V>) {
    exists n: nat :: After(table, throws, s, n).outcome.Some?
  }

  lemma {:induction false} AfterAdd<V>(table: seq<Entry<V>>, throws: bool, s: State<V>, m: nat, n: nat)
    ensures After(table, throws, s, m + n) == After(table, throws, After(table, throws, s, m), n)
  {
    hide Iterate;
    if n > 0 { AfterAdd(table, throws, s, m, n - 1); }
  }

  /** If there is no outcome before the m-th iteration, it is all the same to begin there. */
  lemma FinishesFrom<V>(table: seq<Entry<V>>, throws: bool, s: State<V>, m: nat)
    requires forall k: nat :: k < m ==> After(table, throws, s, k).outcome.None?
    ensures Finishes(table, throws, s) <==> Finishes(table, throws, After(table, throws, s, m))
  {
    hide After;
    if Finishes(table, throws, s) {
      var n: nat :| After(table, throws, s, n).outcome.Some?;
      AfterAdd(table, throws, s, m, n - m);
    }
    var u := After(table, throws, s, m);
    if Finishes(table, throws, u) {
      var n: nat :| After(table, throws, u, n).outcome.Some?;
      AfterAdd(table, throws, s, m, n);
    }
  }

  lemma {:induction false} LegsPrefix<V>(table: seq<Entry<V>>, leg: Leg<V>, cur: string, m: nat, n: nat)
    requires m <= n && Legs(table, leg, cur, n).Some?
    ensures Legs(table, leg, cur, m).Some?
    decreases n - m
  {
    hide VisitOf;
    if m < n { LegsPrefix(table, leg, cur, m + 1, n); }
  }

  lemma StopsOnce<V>(table: seq<Entry<V>>, leg: Leg<V>, cur: string, m: nat, n: nat)
    requires StopsAt(table, leg, cur, m) && StopsAt(table, leg, cur, n)
    ensures m == n
  {
    hide VisitOf;
    if m < n { LegsPrefix(table, leg, cur, m + 1, n); }
    if n < m { LegsPrefix(table, leg, cur, n + 1, m); }
  }

  /** One listed type whose insertions end. */
  lemma OneType<V>(table: seq<Entry<V>>, throws: bool, s: State<V>, cur: string, rest: seq<string>, n: nat) returns (u: State<V>)
    requires WellKeyed(table) && cur != "" && cur != ANY && Visiting(s, cur, rest) && StopsAt(table, LegOf(s), cur, n)
    ensures Finishes(table, throws, s) <==> Finishes(table, throws, u)
    ensures var w := VisitOf(table, Legs(table, LegOf(s), cur, n).value, cur);
      if w.Over? then u.outcome.Some?
      else u.outcome.None? && LegOf(u) == Leg(cur, w.v) && u.i < |u.types| && u.types[u.i + 1..] == rest
  {
    hide Iterate, WellKeyed, VisitOf;
    LockStep(table, throws, s, cur, rest, n);
    var t := After(table, throws, s, 2 * n);
    VisitPasses(table, throws, t, cur, rest);
    u := After(table, throws, s, 2 * n + 1);
    FinishesFrom(table, throws, s, 2 * n + 1);
  }

  lemma NeverLeft<V>(table: seq<Entry<V>>, throws: bool, s: State<V>, cur: string, rest: seq<string>)
    requires WellKeyed(table) && cur != "" && cur != ANY && Visiting(s, cur, rest)
    requires forall n: nat :: !StopsAt(table, LegOf(s), cur, n)
    ensures !Finishes(table, throws, s)
  {
    hide WellKeyed, Visiting, VisitOf, Iterate;
    forall n: nat ensures After(table, throws, s, n).outcome.None? {
      AlwaysLegs(table, LegOf(s), cur, n);
      LockStep(table, throws, s, cur, rest, n);
      assert !Past(After(table, throws, s, n), rest);
    }
  }

  /**
   For any table, false values, throwing converters and all: the loop comes to an
   outcome if and only if, type by type, the insertions on the way come to an end,
   up to the end of the list or the first conversion that is missing or throws.
   */
  lemma {:induction false} LoopEndsIff<V>(table: seq<Entry<V>>, throws: bool, s: State<V>, types: seq<string>)
    requires WellKeyed(table) && s.outcome.None? && s.i < |s.types| && s.types[s.i + 1..] == types
    ensures Finishes(table, throws, s) <==> Ends(table, LegOf(s), types)
    decreases |types|
  {
    if types == [] || types[0] == "" {
      EndsAtOnce(table, throws, s);
    } else {
      var cur, rest := types[0], types[1..];
      assert types == [cur] + rest;
      if cur == ANY {
        var u := SkipsAny(table, throws, s, rest);
        LoopEndsIff(table, throws, u, rest);
      } else if n: nat :| StopsAt(table, LegOf(s), cur, n) {
        hide WellKeyed, Finishes, VisitOf, Legs;
        var u := OneType(table, throws, s, cur, rest, n);
        if u.outcome.None? { LoopEndsIff(table, throws, u, rest); } else { Ended(table, throws, u); }
        EndsThrough(table, LegOf(s), types, n);
      } else {
        NeverLeft(table, throws, s, cur, rest);
      }
    }
  }

  lemma EndsAtOnce<V>(table: seq<Entry<V>>, throws: bool, s: State<V>)
    requires s.i < |s.types| && (s.types[s.i + 1..] == [] || s.types[s.i + 1..][0] == "")
    ensures Finishes(table, throws, s)
  {
    assert After(table, throws, s, 0) == s;
    assert After(table, throws, s, 1).outcome.Some?;
  }

  lemma Ended<V>(table: seq<Entry<V>>, throws: bool, s: State<V>)
    requires s.outcome.Some?
    ensures Finishes(table, throws, s)
  {
    assert After(table, throws, s, 0).outcome.Some?;
  }

  lemma SkipsAny<V>(table: seq<Entry<V>>, throws: bool, s: State<V>, rest: seq<string>) returns (u: State<V>)
    requires s.outcome.None? && s.i < |s.types| && s.types[s.i + 1..] == [ANY] + rest
    ensures u.outcome.None? && u.i < |u.types| && u.types[u.i + 1..] == rest && LegOf(u) == LegOf(s)
    ensures Finishes(table, throws, s) <==> Finishes(table, throws, u)
  {
    assert s.types[s.i + 2..] == s.types[s.i + 1..][1..] == rest;
    u := s.(i := s.i + 1);
    assert After(table, throws, s, 0) == s;
    assert Iterate(table, throws, s) == u;
    assert After(table, throws, s, 1) == u;
    FinishesFrom(table, throws, s, 1);
  }

  lemma EndsThrough<V>(table: seq<Entry<V>>, leg: Leg<V>, types: seq<string>, n: nat)
    requires types != [] && types[0] != "" && types[0] != ANY && StopsAt(table, leg, types[0], n)
    ensures Ends(table, leg, types) <==> EndsAfter(table, leg, types, n)
  {
    hide VisitOf, EndsAfter;
    forall m: nat | StopsAt(table, leg, types[0], m) ensures m == n { StopsOnce(table, leg, types[0], m, n); }
  }

  /** One key with a false value is enough: converting "x" to "b" inserts "a" for ever. */
  lemma FalseConverterLoops<V(!new)>(f: V -> Outcome<V>, throws: bool, v: V, n: nat)
    requires forall u :: f(u).Value?
    ensures var table := [Entry("a", "b", Off), Entry(ANY, "a", Call(f))];
      After(table, throws, State(["x", "b"], 0, "x", v, None), n).outcome.None?
  {
    var id := Call(f);
    var table := [Entry("a", "b", Off), Entry(ANY, "a", id)];
    var s := State(["x", "b"], 0, "x", v, None);
    assert "x"[0] != "a"[0] && "x"[0] != ANY[0] && "a"[0] != ANY[0] && "a"[0] != "b"[0] && "b"[0] != "x"[0];
    DirectTwo(table[0], table[1], "x", "b");
    DirectTwo(table[0], table[1], "a", "b");
    DirectTwo(table[0], table[1], "x", "a");
    DirectTwo(table[0], table[1], "a", "a");
    assert Direct(table, "x", "b") == Off && Direct(table, "a", "b") == Off;
    assert Direct(table, "x", "a") == id && Direct(table, "a", "a") == id;
    assert Pairs(table, "x", "b", table[0]) && Pairs(table, "a", "b", table[0]);
    assert Seek(table, "x", "b") == Pick(id, Some("a")) && Seek(table, "a", "b") == Pick(id, Some("a"));
    ReturnsToA(table, f, v, n);
    LockStep(table, throws, s, "b", [], n);
  }

  lemma LookupTwo<V>(d: Entry<V>, e: Entry<V>, from: string, to: string)
    ensures Lookup([d, e], from, to) ==
      if d.from == from && d.to == to then d.conv else if e.from == from && e.to == to then e.conv else Off
  {
    assert [d, e][1..] == [e];
    assert Lookup([e], from, to) == if e.from == from && e.to == to then e.conv else Lookup([e][1..], from, to);
    assert [e][1..] == [];
  }

  lemma DirectTwo<V>(d: Entry<V>, e: Entry<V>, from: string, to: string)
    requires d.conv.Off? && d.from != ANY && e.from == ANY
    ensures Direct([d, e], from, to) == if e.to == to then e.conv else Off
  {
    LookupTwo(d, e, from, to);
    LookupTwo(d, e, ANY, to);
  }

  lemma {:induction false} ReturnsToA<V(!new)>(table: seq<Entry<V>>, f: V -> Outcome<V>, v: V, n: nat)
    requires forall u :: f(u).Value?
    requires Seek(table, "x", "b") == Pick(Call(f), Some("a")) && Seek(table, "a", "b") == Pick(Call(f), Some("a"))
    ensures var l := Legs(table, Leg("x", v), "b", n); l.Some? && l.value.at == if n == 0 then "x" else "a"
  {
    hide Seek;
    assert "x"[0] != ANY[0] && "a"[0] != ANY[0] && "a"[0] != "b"[0] && "b"[0] != "x"[0];
    assert "x" != ANY && "a" != ANY && "a" != "b" && "x" != "b";
    if n > 0 {
      ReturnsToA(table, f, v, n - 1);
      var l := Legs(table, Leg("x", v), "b", n - 1).value;
      assert f(l.v).Value?;
      assert VisitOf(table, l, "b") == Inserted(Leg("a", f(l.v).value));
    }
  }

  /** In a live table one insertion is enough for any pair of types. */
  lemma LiveWalksAreShort<V>(table: seq<Entry<V>>, prev: string, cur: string)
    requires WellKeyed(table) && Live(table)
    ensures Walk(table, prev, cur, 2).None?
  {
    assert Walk(table, prev, cur, 1) == Onward(table, prev, cur);
    if Onward(table, prev, cur).Some? { PairIsProper(table, prev, cur); }
  }
}
