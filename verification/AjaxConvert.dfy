/** The converter chain of jQuery.ajax, whose loop inserts into the list of data types it walks. */
module AjaxConvert {
  import opened Prelude

  const ANY := "*"

  /** What a converter call comes to. */
  datatype Outcome<V> = Value(value: V) | Throws(error: V)

  /** A registered converter: true, something that can be called, or a value that counts as false. */
  datatype Conv<!V> = Same | Call(f: V -> Outcome<V>) | Off

  /** One key "from to" of the converters map, lowercased. */
  datatype Entry<!V> = Entry(from: string, to: string, conv: Conv<V>)

  datatype Failure<V> = Thrown(error: V) | NoConversion(from: string, to: string)

  datatype Result<V> = Success(data: V) | ParserError(failure: Failure<V>) | Bubbled(error: V)

  /** The keys are distinct and consist of two words. */
  ghost predicate WellKeyed<V>(table: seq<Entry<V>>) {
    && (forall k :: 0 <= k < |table| ==> table[k].from != "" && table[k].to != "")
    && (forall j, k :: 0 <= j < k < |table| ==> table[j].from != table[k].from || table[j].to != table[k].to)
  }

  /** Every registered converter counts as true. */
  ghost predicate Live<V>(table: seq<Entry<V>>) {
    forall k :: 0 <= k < |table| ==> !table[k].conv.Off?
  }

  function Lookup<V>(table: seq<Entry<V>>, from: string, to: string): Conv<V> {
    if table == [] then Off
    else if table[0].from == from && table[0].to == to then table[0].conv
    else Lookup(table[1..], from, to)
  }

  /** converters[from + " " + to] || converters["* " + to] */
  function Direct<V>(table: seq<Entry<V>>, from: string, to: string): Conv<V> {
    var c := Lookup(table, from, to);
    if c.Off? then Lookup(table, ANY, to) else c
  }

  /** Entry e completes a pair: it outputs cur, and prev converts to its input. */
  predicate Pairs<V>(table: seq<Entry<V>>, prev: string, cur: string, e: Entry<V>) {
    e.to == cur && !Direct(table, prev, e.from).Off?
  }

  /** The first entry from k on that completes a pair. */
  function PairFrom<V>(table: seq<Entry<V>>, prev: string, cur: string, k: nat): (r: nat)
    requires k <= |table|
    ensures k <= r <= |table| && (r < |table| ==> Pairs(table, prev, cur, table[r]))
    ensures forall j :: k <= j < r ==> !Pairs(table, prev, cur, table[j])
    decreases |table| - k
  {
    if k == |table| || Pairs(table, prev, cur, table[k]) then k else PairFrom(table, prev, cur, k + 1)
  }

  // ----- what the conversion is meant to do -----

  function Calls<V>(c: Conv<V>): seq<V -> Outcome<V>> {
    if c.Call? then [c.f] else []
  }

  /** The converters to call, in order, to get from prev to cur: a direct or wildcard one, or the first pair. */
  function Hop<V>(table: seq<Entry<V>>, prev: string, cur: string): Option<seq<V -> Outcome<V>>> {
    var d := Direct(table, prev, cur);
    var k := PairFrom(table, prev, cur, 0);
    if !d.Off? then Some(Calls(d))
    else if k < |table| then Some(Calls(Direct(table, prev, table[k].from)) + Calls(table[k].conv))
    else None
  }

  function CallAll<V>(fs: seq<V -> Outcome<V>>, v: V): Outcome<V> {
    if fs == [] then Value(v)
    else var o := fs[0](v); if o.Throws? then o else CallAll(fs[1..], o.value)
  }

  function Fail<V>(throws: bool, e: V): Result<V> {
    if throws then Bubbled(e) else ParserError(Thrown(e))
  }

  /** The conversion of v, of type prev, through types: a plain fold without any insertion. */
  function Convert<V>(table: seq<Entry<V>>, throws: bool, prev: string, types: seq<string>, v: V): Result<V>
    decreases |types|
  {
    if types == [] || types[0] == "" then Success(v)
    else if types[0] == ANY then Convert(table, throws, prev, types[1..], v)
    else if prev == ANY || prev == types[0] then Convert(table, throws, types[0], types[1..], v)
    else
      var hop := Hop(table, prev, types[0]);
      if hop.None? then ParserError(NoConversion(prev, types[0]))
      else
        var o := CallAll(hop.value, v);
        if o.Throws? then Fail(throws, o.error) else Convert(table, throws, types[0], types[1..], o.value)
  }

  // ----- the loop, one iteration at a time -----

  datatype State<V> = State(types: seq<string>, i: nat, prev: string, response: V, outcome: Option<Result<V>>)

  /** The converter the loop picks, and the intermediate type it inserts. */
  datatype Pick<!V> = Pick(conv: Conv<V>, via: Option<string>)

  function Seek<V>(table: seq<Entry<V>>, prev: string, cur: string): Pick<V> {
    var d := Direct(table, prev, cur);
    var k := PairFrom(table, prev, cur, 0);
    if !d.Off? then Pick(d, None)
    else if k == |table| then Pick(Off, None)
    else
      var first, second := Direct(table, prev, table[k].from), table[k].conv;
      if first.Same? then Pick(second, None)
      else if second.Same? then Pick(first, None)
      else Pick(first, Some(table[k].from))
  }

  function Current<V>(s: State<V>): string
    requires s.i + 1 < |s.types|
  {
    s.types[s.i + 1]
  }

  /** Use the picked converter, insert the intermediate type, and move on. */
  function UsePick<V>(throws: bool, s: State<V>, p: Pick<V>): State<V>
    requires s.i + 1 < |s.types|
  {
    var cur := if p.via.Some? then p.via.value else Current(s);
    if p.conv.Off? then s.(outcome := Some(ParserError(NoConversion(s.prev, cur))))
    else
      var o := if p.conv.Same? then Value(s.response) else p.conv.f(s.response);
      if o.Throws? then s.(outcome := Some(Fail(throws, o.error)))
      else if p.via.Some? then
        s.(types := s.types[..s.i + 1] + [cur] + s.types[s.i + 1..], prev := cur, response := o.value)
      else s.(i := s.i + 1, prev := cur, response := o.value)
  }

  function Iterate<V>(table: seq<Entry<V>>, throws: bool, s: State<V>): State<V> {
    if s.outcome.Some? then s
    else if s.i + 1 >= |s.types| || Current(s) == "" then s.(outcome := Some(Success(s.response)))
    else if Current(s) == ANY then s.(i := s.i + 1)
    else if s.prev == ANY || s.prev == Current(s) then s.(i := s.i + 1, prev := Current(s))
    else UsePick(throws, s, Seek(table, s.prev, Current(s)))
  }

  /** What is still to come in state s, according to the fold. */
  function Future<V>(table: seq<Entry<V>>, throws: bool, s: State<V>): Result<V>
    requires s.i < |s.types|
  {
    if s.outcome.Some? then s.outcome.value else Convert(table, throws, s.prev, s.types[s.i + 1..], s.response)
  }

  /** An upper bound on the iterations left: three per listed type that needs an intermediate one. */
  function Cost<V>(table: seq<Entry<V>>, prev: string, types: seq<string>): (c: nat)
    ensures c <= 3 * |types|
    decreases |types|
  {
    if types == [] || types[0] == "" then 0
    else if types[0] == ANY then 1 + Cost(table, prev, types[1..])
    else if prev == ANY || prev == types[0] then 1 + Cost(table, types[0], types[1..])
    else (if Seek(table, prev, types[0]).via.Some? then 3 else 1) + Cost(table, types[0], types[1..])
  }

  /** The intermediate types still to be inserted. */
  function Inserts<V>(table: seq<Entry<V>>, prev: string, types: seq<string>): (c: nat)
    ensures c <= |types|
    decreases |types|
  {
    if types == [] || types[0] == "" then 0
    else if types[0] == ANY then Inserts(table, prev, types[1..])
    else if prev == ANY || prev == types[0] then Inserts(table, types[0], types[1..])
    else (if Seek(table, prev, types[0]).via.Some? then 1 else 0) + Inserts(table, types[0], types[1..])
  }

  // ----- lookups -----

  lemma {:induction false} LookupEntry<V>(table: seq<Entry<V>>, k: nat)
    requires WellKeyed(table) && k < |table|
    ensures Lookup(table, table[k].from, table[k].to) == table[k].conv
  {
    if k > 0 { LookupEntry(table[1..], k - 1); }
  }

  lemma {:induction false} LookupLive<V>(table: seq<Entry<V>>, from: string, to: string)
    requires !Lookup(table, from, to).Off?
    ensures exists k :: 0 <= k < |table| && table[k] == Entry(from, to, Lookup(table, from, to))
  {
    if table[0].from == from && table[0].to == to {
      assert table[0] == Entry(from, to, Lookup(table, from, to));
    } else {
      LookupLive(table[1..], from, to);
      var k :| 0 <= k < |table[1..]| && table[1..][k] == Entry(from, to, Lookup(table[1..], from, to));
      assert table[k + 1] == Entry(from, to, Lookup(table, from, to));
    }
  }

  /** In a live table the intermediate type is a new one, and from there the direct converter is the pair's second. */
  lemma PairIsProper<V>(table: seq<Entry<V>>, prev: string, cur: string)
    requires WellKeyed(table) && Live(table) && Direct(table, prev, cur).Off?
    requires PairFrom(table, prev, cur, 0) < |table|
    ensures var e := table[PairFrom(table, prev, cur, 0)];
      e.from != ANY && e.from != "" && e.from != cur && !e.conv.Off? && Direct(table, e.from, cur) == e.conv
  {
    var k := PairFrom(table, prev, cur, 0);
    LookupEntry(table, k);
  }

  lemma CallTwo<V>(c: Conv<V>, d: Conv<V>, v: V)
    ensures CallAll(Calls(c) + Calls(d), v) ==
      var o := CallAll(Calls(c), v); if o.Throws? then o else CallAll(Calls(d), o.value)
    ensures CallAll(Calls(c), v) == if c.Call? then c.f(v) else Value(v)
  {
    assert Calls(c) + Calls(d) == if c.Call? then [c.f] + Calls(d) else Calls(d);
    if c.Call? { assert ([c.f] + Calls(d))[1..] == Calls(d); }
  }

  // ----- one iteration keeps the future and costs one -----

  ghost predicate Walking<V>(table: seq<Entry<V>>, s: State<V>) {
    WellKeyed(table) && Live(table) && s.i < |s.types|
  }

  /** The parts of one iteration that a caller of the loop may rely on. */
  ghost predicate Kept<V>(table: seq<Entry<V>>, throws: bool, s: State<V>, t: State<V>) {
    && s.i < |s.types| && t.i < |t.types|
    && |s.types| <= |t.types| && Future(table, throws, t) == Future(table, throws, s)
    && (t.outcome.None? ==>
      && Cost(table, t.prev, t.types[t.i + 1..]) < Cost(table, s.prev, s.types[s.i + 1..])
      && |t.types| + Inserts(table, t.prev, t.types[t.i + 1..]) == |s.types| + Inserts(table, s.prev, s.types[s.i + 1..]))
    && (t.outcome.Some? ==> |t.types| == |s.types|)
  }

  lemma StepKeeps<V>(table: seq<Entry<V>>, throws: bool, s: State<V>)
    requires Walking(table, s) && s.outcome.None?
    ensures Kept(table, throws, s, Iterate(table, throws, s))
  {
    var rest := s.types[s.i + 1..];
    if rest != [] && rest[0] != "" {
      assert s.types[s.i + 2..] == rest[1..];
      if rest[0] != ANY && s.prev != ANY && s.prev != rest[0] {
        var p := Seek(table, s.prev, rest[0]);
        if p.via.Some? { InsertKeeps(table, throws, s); } else { PlainKeeps(table, throws, s); }
      }
    }
  }

  ghost predicate Working<V>(table: seq<Entry<V>>, s: State<V>) {
    && Walking(table, s) && s.outcome.None? && s.i + 1 < |s.types|
    && Current(s) != "" && Current(s) != ANY && s.prev != ANY && s.prev != Current(s)
  }

  /** One call or none does what the hop asks for. */
  lemma SeekMeans<V>(table: seq<Entry<V>>, prev: string, cur: string, v: V)
    requires WellKeyed(table) && Live(table) && Seek(table, prev, cur).via.None?
    ensures var c := Seek(table, prev, cur).conv; var hop := Hop(table, prev, cur);
      if c.Off? then hop.None?
      else hop.Some? && CallAll(hop.value, v) == if c.Call? then c.f(v) else Value(v)
  {
    var d := Direct(table, prev, cur);
    var k := PairFrom(table, prev, cur, 0);
    if !d.Off? {
      CallTwo(d, Same, v);
    } else if k < |table| {
      CallTwo(Direct(table, prev, table[k].from), table[k].conv, v);
      CallTwo(table[k].conv, Same, v);
      PairIsProper(table, prev, cur);
    }
  }

  lemma PlainKeeps<V>(table: seq<Entry<V>>, throws: bool, s: State<V>)
    requires Working(table, s) && Seek(table, s.prev, Current(s)).via.None?
    ensures Kept(table, throws, s, Iterate(table, throws, s))
  {
    SeekMeans(table, s.prev, Current(s), s.response);
    hide Seek, Hop, CallAll, Direct, PairFrom, Live, WellKeyed;
    assert s.types[s.i + 1..][1..] == s.types[s.i + 2..];
  }

  /** The inserted type is visited again, to no effect. */
  lemma Revisit<V>(table: seq<Entry<V>>, throws: bool, mid: string, rest: seq<string>, v: V)
    requires mid != "" && mid != ANY
    ensures Convert(table, throws, mid, [mid] + rest, v) == Convert(table, throws, mid, rest, v)
    ensures Cost(table, mid, [mid] + rest) == 1 + Cost(table, mid, rest)
    ensures Inserts(table, mid, [mid] + rest) == Inserts(table, mid, rest)
  {
    assert ([mid] + rest)[1..] == rest;
  }

  lemma InsertKeeps<V>(table: seq<Entry<V>>, throws: bool, s: State<V>)
    requires Working(table, s) && Seek(table, s.prev, Current(s)).via.Some?
    ensures Kept(table, throws, s, Iterate(table, throws, s))
  {
    var cur := Current(s);
    var e := table[PairFrom(table, s.prev, cur, 0)];
    PairIsProper(table, s.prev, cur);
    var rest := s.types[s.i + 1..];
    var t := Iterate(table, throws, s);
    CallTwo(Direct(table, s.prev, e.from), e.conv, s.response);
    if t.outcome.None? {
      assert t.types[t.i + 1..] == [e.from] + rest;
      Revisit(table, throws, e.from, rest, t.response);
      CallTwo(e.conv, Same, t.response);
      assert Hop(table, e.from, cur) == Some(Calls(e.conv));
    }
  }

  // ----- the loop itself -----

  /** Seek a direct converter, else the first pair; equivalences are condensed. */
  method FindConverter<V>(table: seq<Entry<V>>, prev: string, current: string) returns (p: Pick<V>)
    ensures p == Seek(table, prev, current)
  {
    var conv, via := Direct(table, prev, current), None;
    if conv.Off? {
      var k := 0;
      while k < |table|
        invariant k <= |table| && conv.Off? && via.None?
        invariant PairFrom(table, prev, current, 0) == PairFrom(table, prev, current, k)
      {
        var conv2 := table[k];
        if conv2.to == current {
          conv := Direct(table, prev, conv2.from);
          if !conv.Off? {
            if conv.Same? {
              conv := conv2.conv;
            } else if !conv2.conv.Same? {
              via := Some(conv2.from);
            }
            break;
          }
        }
        k := k + 1;
      }
    }
    p := Pick(conv, via);
  }

  /** One iteration of the loop over dataTypes, for any table. */
  method Advance<V>(table: seq<Entry<V>>, throws: bool, types: seq<string>, i: nat, prev: string, response: V)
    returns (types2: seq<string>, i2: nat, prev2: string, response2: V, outcome: Option<Result<V>>)
    ensures State(types2, i2, prev2, response2, outcome) == Iterate(table, throws, State(types, i, prev, response, None))
  {
    types2, i2, prev2, response2, outcome := types, i, prev, response, None;
    if i + 1 >= |types| || types[i + 1] == "" { return types, i, prev, response, Some(Success(response)); }
    var current := types[i + 1];
    if current == ANY { return types, i + 1, prev, response, None; }
    if prev == ANY || prev == current { return types, i + 1, current, response, None; }
    var p := FindConverter(table, prev, current);
    if p.via.Some? { current := p.via.value; }
    if p.conv.Off? { return types, i, prev, response, Some(ParserError(NoConversion(prev, current))); }
    if p.conv.Call? {
      var o := p.conv.f(response);
      if o.Throws? { return types, i, prev, response, Some(Fail(throws, o.error)); }
      response2 := o.value;
    }
    if p.via.Some? {
      types2 := types[..i + 1] + [current] + types[i + 1..];
    } else {
      i2 := i + 1;
    }
    prev2 := current;
  }

  /** After so many iterations the loop is in state s. */
  ghost predicate Reached<V>(table: seq<Entry<V>>, throws: bool, dataTypes: seq<string>, response: V, s: State<V>, iterations: nat)
    requires dataTypes != []
  {
    && Walking(table, s) && |dataTypes| <= |s.types|
    && Future(table, throws, s) == Convert(table, throws, dataTypes[0], dataTypes[1..], response)
    && (s.outcome.Some? ==> |s.types| <= 2 * |dataTypes| - 1 && iterations <= 3 * |dataTypes| - 2)
    && (s.outcome.None? ==>
      && |s.types| + Inserts(table, s.prev, s.types[s.i + 1..]) <= 2 * |dataTypes| - 1
      && iterations + Left(table, s) <= 3 * |dataTypes| - 3)
  }

  function Left<V>(table: seq<Entry<V>>, s: State<V>): nat {
    if s.i < |s.types| then Cost(table, s.prev, s.types[s.i + 1..]) else 0
  }

  lemma ReachedStep<V>(table: seq<Entry<V>>, throws: bool, dataTypes: seq<string>, response: V, s: State<V>, iterations: nat)
    requires dataTypes != [] && Reached(table, throws, dataTypes, response, s, iterations) && s.outcome.None?
    ensures var t := Iterate(table, throws, s);
      && Reached(table, throws, dataTypes, response, t, iterations + 1)
      && (t.outcome.None? ==> Left(table, t) < Left(table, s))
  {
    StepKeeps(table, throws, s);
    hide Iterate, Future, Cost, Inserts, Convert;
  }

  /** ajaxConvert: the loop ends, inserts at most one type per listed type, and computes the fold. */
  method AjaxConvert<V>(table: seq<Entry<V>>, throws: bool, dataTypes: seq<string>, response: V)
    returns (r: Result<V>, walked: seq<string>, iterations: nat)
    requires WellKeyed(table) && Live(table) && dataTypes != []
    ensures r == Convert(table, throws, dataTypes[0], dataTypes[1..], response)
    ensures (r.Bubbled? ==> throws) && (r.ParserError? && r.failure.Thrown? ==> !throws)
    ensures |dataTypes| <= |walked| <= 2 * |dataTypes| - 1
    ensures iterations <= 3 * |dataTypes| - 2
  {
    var types, i: nat, prev, v, outcome := dataTypes, 0, dataTypes[0], response, None;
    iterations := 0;
    ghost var s := State(types, i, prev, v, outcome);
    hide Iterate, Left;
    Starts(table, throws, dataTypes, response);
    while outcome.None?
      invariant s == State(types, i, prev, v, outcome)
      invariant Reached(table, throws, dataTypes, response, s, iterations)
      decreases outcome.None?, Left(table, s)
    {
      ReachedStep(table, throws, dataTypes, response, s, iterations);
      types, i, prev, v, outcome := Advance(table, throws, types, i, prev, v);
      s := Iterate(table, throws, s);
      iterations := iterations + 1;
    }
    r, walked := outcome.value, types;
    ErrorsGoWhereAsked(table, throws, dataTypes[0], dataTypes[1..], response);
  }

  /** An exception leaves the conversion only if errors are to bubble, and is turned into a parser error only if not. */
  lemma {:induction false} ErrorsGoWhereAsked<V>(table: seq<Entry<V>>, throws: bool, prev: string, types: seq<string>, v: V)
    ensures var r := Convert(table, throws, prev, types, v);
      (r.Bubbled? ==> throws) && (r.ParserError? && r.failure.Thrown? ==> !throws)
    decreases |types|
  {
    hide Hop, CallAll;
    if types != [] && types[0] != "" {
      if types[0] == ANY || prev == ANY || prev == types[0] {
        ErrorsGoWhereAsked(table, throws, if types[0] == ANY then prev else types[0], types[1..], v);
      } else if Hop(table, prev, types[0]).Some? {
        var o := CallAll(Hop(table, prev, types[0]).value, v);
        if o.Value? { ErrorsGoWhereAsked(table, throws, types[0], types[1..], o.value); }
      }
    }
  }

  lemma Starts<V>(table: seq<Entry<V>>, throws: bool, dataTypes: seq<string>, response: V)
    requires WellKeyed(table) && Live(table) && dataTypes != []
    ensures Reached(table, throws, dataTypes, response, State(dataTypes, 0, dataTypes[0], response, None), 0)
  {
  }
}
