/** What a successful conversion has gone through. */
module AjaxPaths {
  import opened AjaxConvert

  // ----- type correctness -----

  ghost predicate Takes<V>(has: (string, V) -> bool, e: Entry<V>, v: V) {
    e.from == ANY || has(e.from, v)
  }

  ghost predicate Gives<V>(has: (string, V) -> bool, e: Entry<V>, v: V) {
    match e.conv
    case Same => has(e.to, v)
    case Call(f) => f(v).Value? ==> has(e.to, f(v).value)
    case Off => true
  }

  /** Every converter takes values of its input type to values of its output type, whatever the types mean. */
  ghost predicate Respects<V(!new)>(table: seq<Entry<V>>, has: (string, V) -> bool) {
    forall k, v :: 0 <= k < |table| && Takes(has, table[k], v) ==> Gives(has, table[k], v)
  }

  /** The type of the data after the listed types. */
  function LastType(prev: string, types: seq<string>): string
    decreases |types|
  {
    if types == [] || types[0] == "" then prev
    else LastType(if types[0] == ANY then prev else types[0], types[1..])
  }

  /** The type the data is taken to have at first. */
  function FirstType(prev: string, types: seq<string>): string
    decreases |types|
  {
    if prev != ANY || types == [] || types[0] == "" then prev else FirstType(types[0], types[1..])
  }

  lemma DirectRespects<V(!new)>(table: seq<Entry<V>>, has: (string, V) -> bool, prev: string, cur: string, v: V)
    requires Respects(table, has) && has(prev, v) && !Direct(table, prev, cur).Off?
    ensures var o := CallAll(Calls(Direct(table, prev, cur)), v); o.Value? ==> has(cur, o.value)
  {
    var from := if Lookup(table, prev, cur).Off? then ANY else prev;
    LookupLive(table, from, cur);
    var k :| 0 <= k < |table| && table[k] == Entry(from, cur, Direct(table, prev, cur));
    assert Takes(has, table[k], v);
    CallTwo(table[k].conv, Same, v);
  }

  lemma HopRespects<V(!new)>(table: seq<Entry<V>>, has: (string, V) -> bool, prev: string, cur: string, v: V)
    requires WellKeyed(table) && Live(table) && Respects(table, has) && has(prev, v) && Hop(table, prev, cur).Some?
    ensures var o := CallAll(Hop(table, prev, cur).value, v); o.Value? ==> has(cur, o.value)
  {
    if !Direct(table, prev, cur).Off? {
      DirectRespects(table, has, prev, cur, v);
    } else {
      var e := table[PairFrom(table, prev, cur, 0)];
      DirectRespects(table, has, prev, e.from, v);
      CallTwo(Direct(table, prev, e.from), e.conv, v);
      var o := CallAll(Calls(Direct(table, prev, e.from)), v);
      if o.Value? {
        assert Takes(has, e, o.value);
        CallTwo(e.conv, Same, o.value);
      }
    }
  }

  /** If every converter respects the types, a successful conversion ends in data of the last listed type. */
  lemma {:induction false} ConversionIsTypeCorrect<V(!new)>(table: seq<Entry<V>>, has: (string, V) -> bool, throws: bool,
      prev: string, types: seq<string>, v: V)
    requires WellKeyed(table) && Live(table) && Respects(table, has)
    requires FirstType(prev, types) != ANY ==> has(FirstType(prev, types), v)
    ensures var r := Convert(table, throws, prev, types, v);
      r.Success? && LastType(prev, types) != ANY ==> has(LastType(prev, types), r.data)
    decreases |types|
  {
    hide Live, WellKeyed, Respects, Hop;
    if types != [] && types[0] != "" {
      if types[0] == ANY || prev == ANY || prev == types[0] {
        ConversionIsTypeCorrect(table, has, throws, if types[0] == ANY then prev else types[0], types[1..], v);
      } else if Hop(table, prev, types[0]).Some? {
        HopRespects(table, has, prev, types[0], v);
        var o := CallAll(Hop(table, prev, types[0]).value, v);
        if o.Value? { ConversionIsTypeCorrect(table, has, throws, types[0], types[1..], o.value); }
      }
    }
  }

  /** A successful conversion goes through every listed type: it is a conversion to the first k, then one to the others. */
  lemma {:induction false} ConversionPassesThrough<V>(table: seq<Entry<V>>, throws: bool, prev: string, types: seq<string>, k: nat, v: V)
    requires k <= |types| && "" !in types[..k] && Convert(table, throws, prev, types, v).Success?
    ensures var h := Convert(table, throws, prev, types[..k], v);
      && h.Success?
      && Convert(table, throws, prev, types, v) == Convert(table, throws, LastType(prev, types[..k]), types[k..], h.data)
    decreases |types|
  {
    hide Hop, CallAll;
    if k == 0 {
      assert types[0..] == types;
    } else {
      var head := types[..k];
      assert head[0] == types[0] && head[1..] == types[1..][..k - 1] && types[1..][k - 1..] == types[k..];
      assert types[0] in head && forall t :: t in head[1..] ==> t in head;
      if types[0] == ANY || prev == ANY || prev == types[0] {
        ConversionPassesThrough(table, throws, if types[0] == ANY then prev else types[0], types[1..], k - 1, v);
      } else {
        var o := CallAll(Hop(table, prev, types[0]).value, v);
        ConversionPassesThrough(table, throws, types[0], types[1..], k - 1, o.value);
      }
    }
  }

  /** "No conversion" is reported exactly when there is neither a direct or wildcard converter nor any pair. */
  lemma NoConversionIff<V>(table: seq<Entry<V>>, prev: string, cur: string)
    requires WellKeyed(table) && Live(table)
    ensures Hop(table, prev, cur).None? <==>
      Direct(table, prev, cur).Off? && forall mid :: Direct(table, prev, mid).Off? || Lookup(table, mid, cur).Off?
  {
    var k := PairFrom(table, prev, cur, 0);
    if Hop(table, prev, cur).None? {
      forall mid ensures Direct(table, prev, mid).Off? || Lookup(table, mid, cur).Off? {
        if !Lookup(table, mid, cur).Off? {
          LookupLive(table, mid, cur);
          var j :| 0 <= j < |table| && table[j] == Entry(mid, cur, Lookup(table, mid, cur));
          assert !Pairs(table, prev, cur, table[j]);
        }
      }
    } else if Direct(table, prev, cur).Off? {
      LookupEntry(table, k);
    }
  }
}
