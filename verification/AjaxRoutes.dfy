/**
 The converters a conversion goes through, read off the table of converters and
 the list of types alone, and what the conversion comes to when they are called.
 */
module AjaxRoutes {
  import opened Prelude
  import opened AjaxConvert

  // ----- the converters between two types -----

  /** Entry k is a live converter under the key "from to". */
  predicate Under<V>(table: seq<Entry<V>>, from: string, to: string, k: nat) {
    k < |table| && table[k].from == from && table[k].to == to && !table[k].conv.Off?
  }

  ghost predicate Nothing<V>(table: seq<Entry<V>>, from: string, to: string) {
    forall k: nat :: !Under(table, from, to, k)
  }

  /** The converter under the exact key, else the one that takes any input. */
  ghost predicate OneCall<V>(table: seq<Entry<V>>, from: string, to: string, k: nat) {
    Under(table, from, to, k) || (Under(table, ANY, to, k) && Nothing(table, from, to))
  }

  ghost predicate NoCall<V>(table: seq<Entry<V>>, from: string, to: string) {
    Nothing(table, from, to) && Nothing(table, ANY, to)
  }

  /** Entry k is the first in the table to output `to` from something that `from` converts to. */
  ghost predicate FirstDetour<V>(table: seq<Entry<V>>, from: string, to: string, k: nat) {
    && k < |table| && table[k].to == to && !NoCall(table, from, table[k].from)
    && forall j :: 0 <= j < k && table[j].to == to ==> NoCall(table, from, table[j].from)
  }

  /** One converter if there is one, else the two of the first detour. */
  ghost predicate Chosen<V>(table: seq<Entry<V>>, from: string, to: string, ks: seq<nat>) {
    || (|ks| == 1 && OneCall(table, from, to, ks[0]))
    || (|ks| == 2 && NoCall(table, from, to) && FirstDetour(table, from, to, ks[1]) && OneCall(table, from, table[ks[1]].from, ks[0]))
  }

  ghost predicate Impossible<V>(table: seq<Entry<V>>, from: string, to: string) {
    NoCall(table, from, to) && forall k: nat :: !FirstDetour(table, from, to, k)
  }

  /** The same converters are tried one after the other; the first that throws ends it. */
  function CallThem<V>(table: seq<Entry<V>>, ks: seq<nat>, v: V): Outcome<V> {
    if ks == [] || ks[0] >= |table| then Value(v)
    else
      match table[ks[0]].conv
      case Call(f) => (match f(v) case Throws(e) => Throws(e) case Value(u) => CallThem(table, ks[1..], u))
      case _ => CallThem(table, ks[1..], v)
  }

  // ----- the whole list of types -----

  /** Where a conversion stops short: no way from one type to the next. */
  datatype Gap = Gap(from: string, to: string)

  /** The converters for the whole list, in order, up to its end or to a gap. "*" asks for nothing, and from "*" nothing is asked. */
  ghost predicate Route<V>(table: seq<Entry<V>>, prev: string, types: seq<string>, ks: seq<nat>, gap: Option<Gap>)
    decreases |types|
  {
    if types == [] || types[0] == "" then ks == [] && gap.None?
    else if types[0] == ANY then Route(table, prev, types[1..], ks, gap)
    else if prev == ANY || prev == types[0] then Route(table, types[0], types[1..], ks, gap)
    else
      || (Impossible(table, prev, types[0]) && ks == [] && gap == Some(Gap(prev, types[0])))
      || (exists n: nat :: n <= |ks| && Chosen(table, prev, types[0], ks[..n]) && Route(table, types[0], types[1..], ks[n..], gap))
  }

  // ----- how the model finds them -----

  lemma OneCallIsDirect<V>(table: seq<Entry<V>>, from: string, to: string, k: nat)
    requires WellKeyed(table) && OneCall(table, from, to, k)
    ensures Direct(table, from, to) == table[k].conv
  {
    LookupEntry(table, k);
    if !Lookup(table, from, to).Off? { LookupFinds(table, from, to); }
  }

  lemma LookupFinds<V>(table: seq<Entry<V>>, from: string, to: string)
    requires !Lookup(table, from, to).Off?
    ensures !Nothing(table, from, to)
  {
    LookupLive(table, from, to);
    var k: nat :| k < |table| && table[k] == Entry(from, to, Lookup(table, from, to));
    assert Under(table, from, to, k);
  }

  lemma NoCallIsOff<V>(table: seq<Entry<V>>, from: string, to: string)
    requires WellKeyed(table)
    ensures NoCall(table, from, to) <==> Direct(table, from, to).Off?
    ensures !NoCall(table, from, to) ==> exists k: nat :: OneCall(table, from, to, k)
  {
    if !Lookup(table, from, to).Off? { LookupFinds(table, from, to); }
    if !Lookup(table, ANY, to).Off? { LookupFinds(table, ANY, to); }
    if !Nothing(table, from, to) {
      var k: nat :| Under(table, from, to, k);
      LookupEntry(table, k);
      assert OneCall(table, from, to, k);
    } else if !Nothing(table, ANY, to) {
      var k: nat :| Under(table, ANY, to, k);
      LookupEntry(table, k);
      assert OneCall(table, from, to, k);
    }
  }

  lemma DetourIsPair<V>(table: seq<Entry<V>>, from: string, to: string)
    requires WellKeyed(table)
    ensures forall k: nat :: FirstDetour(table, from, to, k) <==> k == PairFrom(table, from, to, 0) < |table|
  {
    forall k: nat | k < |table| ensures Pairs(table, from, to, table[k]) <==> table[k].to == to && !NoCall(table, from, table[k].from) {
      NoCallIsOff(table, from, table[k].from);
    }
    hide NoCall;
  }

  lemma CallConcat<V>(table: seq<Entry<V>>, a: seq<nat>, b: seq<nat>, v: V)
    requires forall k :: k in a ==> k < |table|
    ensures CallThem(table, a + b, v) ==
      (match CallThem(table, a, v) case Throws(e) => Throws(e) case Value(u) => CallThem(table, b, u))
  {
    if a == [] { assert a + b == b; }
    else {
      assert (a + b)[1..] == a[1..] + b;
      assert a[0] in a && forall k :: k in a[1..] ==> k in a;
      match table[a[0]].conv
      case Call(f) => if f(v).Value? { CallConcat(table, a[1..], b, f(v).value); }
      case _ => CallConcat(table, a[1..], b, v);
    }
  }

  lemma CallOne<V>(table: seq<Entry<V>>, k: nat, v: V)
    requires k < |table|
    ensures CallThem(table, [k], v) == CallAll(Calls(table[k].conv), v)
  {
    assert [k][1..] == [];
    CallTwo(table[k].conv, Same, v);
  }

  lemma ChosenIsHop<V>(table: seq<Entry<V>>, from: string, to: string, ks: seq<nat>, v: V)
    requires WellKeyed(table) && Live(table) && Chosen(table, from, to, ks)
    ensures Hop(table, from, to).Some? && CallAll(Hop(table, from, to).value, v) == CallThem(table, ks, v)
    ensures forall k :: k in ks ==> k < |table|
  {
    DetourIsPair(table, from, to);
    NoCallIsOff(table, from, to);
    if |ks| == 1 {
      assert ks == [ks[0]];
      OneCallIsDirect(table, from, to, ks[0]);
      CallOne(table, ks[0], v);
    } else {
      var mid := table[ks[1]].from;
      OneCallIsDirect(table, from, mid, ks[0]);
      CallTwo(Direct(table, from, mid), table[ks[1]].conv, v);
      assert ks == [ks[0]] + [ks[1]];
      CallConcat(table, [ks[0]], [ks[1]], v);
      CallOne(table, ks[0], v);
      var o := CallThem(table, [ks[0]], v);
      if o.Value? { CallOne(table, ks[1], o.value); }
    }
  }

  lemma ImpossibleIsNoHop<V>(table: seq<Entry<V>>, from: string, to: string)
    requires WellKeyed(table)
    ensures Impossible(table, from, to) <==> Hop(table, from, to).None?
  {
    DetourIsPair(table, from, to);
    NoCallIsOff(table, from, to);
    var k := PairFrom(table, from, to, 0);
    if k < |table| { assert FirstDetour(table, from, to, k); }
  }

  /** What a conversion comes to, given its route. */
  function RouteResult<V>(table: seq<Entry<V>>, throws: bool, ks: seq<nat>, gap: Option<Gap>, v: V): Result<V> {
    match CallThem(table, ks, v)
    case Throws(e) => if throws then Bubbled(e) else ParserError(Thrown(e))
    case Value(u) => if gap.Some? then ParserError(NoConversion(gap.value.from, gap.value.to)) else Success(u)
  }

  /**
   The conversion calls exactly the converters of the route, in order. If one of
   them throws, its error is what the caller gets: as an exception if errors are to
   bubble, as a parser error otherwise. If none does, a gap is reported, and without
   a gap the converted data is the answer.
   */
  lemma {:induction false} ConversionFollowsRoute<V>(table: seq<Entry<V>>, throws: bool, prev: string, types: seq<string>,
      ks: seq<nat>, gap: Option<Gap>, v: V)
    requires WellKeyed(table) && Live(table) && Route(table, prev, types, ks, gap)
    ensures Convert(table, throws, prev, types, v) == RouteResult(table, throws, ks, gap, v)
    decreases |types|
  {
    hide WellKeyed, Live, Chosen, Impossible, Hop, CallAll;
    if types != [] && types[0] != "" {
      if types[0] == ANY || prev == ANY || prev == types[0] {
        ConversionFollowsRoute(table, throws, if types[0] == ANY then prev else types[0], types[1..], ks, gap, v);
      } else {
        ImpossibleIsNoHop(table, prev, types[0]);
        if Hop(table, prev, types[0]).Some? {
          var n: nat :| n <= |ks| && Chosen(table, prev, types[0], ks[..n]) && Route(table, types[0], types[1..], ks[n..], gap);
          ChosenIsHop(table, prev, types[0], ks[..n], v);
          assert ks == ks[..n] + ks[n..];
          CallConcat(table, ks[..n], ks[n..], v);
          var o := CallThem(table, ks[..n], v);
          if o.Value? { ConversionFollowsRoute(table, throws, types[0], types[1..], ks[n..], gap, o.value); }
        } else {
          NoRouteOn(table, prev, types, ks, gap, v);
        }
      }
    }
  }

  lemma NoRouteOn<V>(table: seq<Entry<V>>, prev: string, types: seq<string>, ks: seq<nat>, gap: Option<Gap>, v: V)
    requires WellKeyed(table) && Live(table) && Route(table, prev, types, ks, gap)
    requires types != [] && types[0] != "" && types[0] != ANY && prev != ANY && prev != types[0] && Hop(table, prev, types[0]).None?
    ensures ks == [] && gap == Some(Gap(prev, types[0]))
  {
    if n: nat :| n <= |ks| && Chosen(table, prev, types[0], ks[..n]) { ChosenIsHop(table, prev, types[0], ks[..n], v); }
  }

  /** Every conversion has a route. */
  lemma {:induction false} RouteExists<V>(table: seq<Entry<V>>, prev: string, types: seq<string>) returns (ks: seq<nat>, gap: Option<Gap>)
    requires WellKeyed(table)
    ensures Route(table, prev, types, ks, gap)
    decreases |types|
  {
    hide WellKeyed, Chosen, Impossible;
    if types == [] || types[0] == "" {
      ks, gap := [], None;
    } else if types[0] == ANY || prev == ANY || prev == types[0] {
      ks, gap := RouteExists(table, if types[0] == ANY then prev else types[0], types[1..]);
    } else if Impossible(table, prev, types[0]) {
      ks, gap := [], Some(Gap(prev, types[0]));
    } else {
      var first := ChoiceExists(table, prev, types[0]);
      var rest;
      rest, gap := RouteExists(table, types[0], types[1..]);
      ks := first + rest;
      assert ks[..|first|] == first && ks[|first|..] == rest;
    }
  }

  lemma ChoiceExists<V>(table: seq<Entry<V>>, from: string, to: string) returns (ks: seq<nat>)
    requires WellKeyed(table) && !Impossible(table, from, to)
    ensures Chosen(table, from, to, ks)
  {
    NoCallIsOff(table, from, to);
    if !NoCall(table, from, to) {
      var k: nat :| OneCall(table, from, to, k);
      ks := [k];
    } else {
      var k: nat :| FirstDetour(table, from, to, k);
      NoCallIsOff(table, from, table[k].from);
      var j: nat :| OneCall(table, from, table[k].from, j);
      ks := [j, k];
    }
  }
}
