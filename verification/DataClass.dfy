/** The mutable data store, with the re-entrant path cleanData, event.remove, removeData, cleanData. */
module DataClass {
  import opened Prelude
  import opened DataCache

  /** How much there is to do for cleanData on e: nothing without event data. */
  function Weight(s: Store, e: nat): nat {
    var en := EntryOf(s, e);
    if en.Some? && en.value.events.Some? then 1 + |en.value.events.value| else 0
  }

  lemma StopListeningSize(m: Listeners, event: string)
    ensures |StopListening(m, event)| <= |m|
  {
    if event in m {
      var left := Without(m[event], event);
      assert (m - {event}).Keys == m.Keys - {event};
      assert m[event := left].Keys == m.Keys;
      KeysSize(m);
      KeysSize(m - {event});
      KeysSize(m[event := left]);
    }
  }

  lemma KeysSize(m: Listeners)
    ensures |m.Keys| == |m|
  {
  }

  lemma UnlistenWeight(env: Env, s: Store, e: nat, event: string)
    requires Valid(s)
    ensures Weight(Apply(env, s, Op.Unlisten(e, event)), e) <= Weight(s, e)
  {
    ApplyEntry(env, s, Op.Unlisten(e, event));
    hide Apply, Valid, StopListening;
    if EntryOf(s, e).Some? && EntryOf(s, e).value.events.Some? {
      StopListeningSize(EntryOf(s, e).value.events.value, event);
    }
  }

  lemma FreedAfterPut(s: Store, e: nat, en: Entry)
    requires EntryOf(s, e).Some?
    ensures Freed(Put(s, e, en), e) == Freed(s, e)
    ensures Put(Put(s, e, en), e, en) == Put(s, e, en)
  {
    var id := s.expando[e];
    assert s.cache[id := en] - {id} == s.cache - {id};
  }

  lemma PutPut(s: Store, e: nat, en: Entry, en2: Entry)
    ensures Put(Put(s, e, en), e, en2) == Put(s, e, en2)
  {
  }

  lemma PutSame(s: Store, e: nat)
    requires EntryOf(s, e).Some?
    ensures Put(s, e, EntryOf(s, e).value) == s
  {
    var id := s.expando[e];
    assert s.cache[id := s.cache[id]] == s.cache;
  }

  /** event.remove in three cases: nothing to do; handlers are left; the event data is removed. */
  lemma UnlistenCases(env: Env, s: Store, e: nat, event: string)
    ensures var u := Apply(env, s, Op.Unlisten(e, event)); var en := EntryOf(s, e);
      if !env.accepts(e) || en.None? || en.value.events.None? then u == s
      else
        var m := StopListening(en.value.events.value, event);
        u == if m != map[] then Put(s, e, en.value.(events := Some(m)))
             else Apply(env, Put(s, e, en.value.(events := Some(m), handle := false)), Remove(e, EventData, true))
  {
    hide StopListening;
    if env.accepts(e) && EntryOf(s, e).Some? {
      PutSame(s, e);
      var en := EntryOf(s, e).value;
      if en.events.Some? && StopListening(en.events.value, event) == map[] {
        var left := en.(events := Some(map[]), handle := false);
        FreedAfterPut(s, e, left);
        PutPut(s, e, left, left.(events := None));
      }
    }
  }

  lemma WriteCase(env: Env, s: Store, e: nat, name: string, v: Val, pvt: bool)
    requires env.accepts(e) && EntryOf(Allocated(s, e), e).Some?
    ensures var t := Allocated(s, e);
      Apply(env, s, Write(e, name, v, pvt)) == Put(t, e, WithFields(EntryOf(t, e).value, pvt, map[env.camel(name) := v]))
  {
  }

  lemma MergeCase(env: Env, s: Store, e: nat, more: Fields, pvt: bool)
    requires env.accepts(e) && EntryOf(Allocated(s, e), e).Some?
    ensures var t := Allocated(s, e);
      Apply(env, s, Merge(e, more, pvt)) == Put(t, e, WithFields(EntryOf(t, e).value, pvt, more))
  {
  }

  lemma KeepsLive(s: Store, e: nat)
    requires EntryOf(s, e).Some?
    ensures Allocated(s, e) == s
  {
  }

  lemma PositiveWeight(s: Store, e: nat)
    requires EntryOf(s, e).Some? && EntryOf(s, e).value.events.Some?
    ensures Weight(s, e) > 0
  {
  }

  lemma ErasedEvents(env: Env, en: Entry, name: string, pvt: bool)
    requires name != ""
    ensures Erased(env, en, name, pvt).events == en.events
  {
  }

  function FreedAll(env: Env, s: Store, es: seq<nat>): Store {
    if es == [] then s
    else
      var t := FreedAll(env, s, es[..|es| - 1]);
      if env.accepts(es[|es| - 1]) then Freed(t, es[|es| - 1]) else t
  }

  class DataStore {
    const env: Env
    var cache: map<nat, Entry>
    var deletedIds: seq<nat>
    var uuid: nat
    var expando: map<nat, nat>

    function State(): Store
      reads this
    {
      Store(cache, deletedIds, uuid, expando)
    }

    constructor (env: Env)
      ensures State() == NEW && this.env == env
    {
      this.env := env;
      cache, deletedIds, uuid, expando := map[], [], 0, map[];
    }

    /** The part of data() that gives e an id and an entry. */
    method MakeEntry(e: nat)
      modifies this
      ensures State() == Allocated(old(State()), e)
    {
      if e !in expando {
        var n := |deletedIds|;
        if n > 0 {
          expando, deletedIds := expando[e := deletedIds[n - 1]], deletedIds[..n - 1];
        } else {
          uuid := uuid + 1;
          expando := expando[e := uuid];
        }
      }
      if expando[e] !in cache { cache := cache[expando[e] := EMPTY]; }
    }

    method SetEntry(e: nat, en: Entry)
      requires EntryOf(State(), e).Some?
      modifies this
      ensures State() == Put(old(State()), e, en)
    {
      cache := cache[expando[e] := en];
    }

    /** data( e, name, value ): afterwards the returned value is what a read sees. */
    method Data(e: nat, name: string, value: Option<Val>, pvt: bool) returns (ret: Option<Val>)
      requires Valid(State())
      modifies this
      ensures State() == if value.Some? then Apply(env, old(State()), Write(e, name, value.value, pvt)) else old(State())
      ensures ret == Read(env, State(), e, name, pvt)
    {
      if !env.accepts(e) { return None; }
      var live := e in expando && expando[e] in cache;
      if value.None? && (!live || (!pvt && cache[expando[e]].data.None?)) { return None; }
      AllocatedIsValid(State(), e);
      hide Valid, Apart, Allocated, WithFields, Apply;
      MakeEntry(e);
      var id := expando[e];
      if value.Some? {
        WriteCase(env, old(State()), e, name, value.value, pvt);
        SetEntry(e, WithFields(cache[id], pvt, map[env.camel(name) := value.value]));
      } else {
        assert State() == old(State()) by { KeepsLive(old(State()), e); }
      }
      var fields := FieldsOf(cache[id], pvt);
      if name in fields && fields[name] != Null { return Some(fields[name]); }
      ret := if env.camel(name) in fields then Some(fields[env.camel(name)]) else None;
    }

    /** data( e, { ... } ): the keys are taken as they are, over those that are there. */
    method DataObject(e: nat, more: Fields, pvt: bool) returns (ret: Option<Fields>)
      requires Valid(State())
      modifies this
      ensures State() == Apply(env, old(State()), Merge(e, more, pvt))
      ensures ret.Some? <==> env.accepts(e)
      ensures ret.Some? ==> EntryOf(State(), e).Some? && ret.value == FieldsOf(EntryOf(State(), e).value, pvt)
    {
      if !env.accepts(e) { return None; }
      AllocatedIsValid(State(), e);
      hide Valid, Apart, Allocated, WithFields, Apply;
      MakeEntry(e);
      var id := expando[e];
      MergeCase(env, old(State()), e, more, pvt);
      SetEntry(e, WithFields(cache[id], pvt, more));
      ret := Some(FieldsOf(cache[id], pvt));
    }

    /** removeData( e, key ) */
    method RemoveData(e: nat, key: Key, pvt: bool)
      requires Valid(State()) && (key.EventData? ==> pvt)
      modifies this
      ensures State() == Apply(env, old(State()), Remove(e, key, pvt))
      decreases if key.EventData? then 0 else Weight(State(), e), 4
    {
      ghost var s := State();
      EmptyNameIsWhole(env, s, e, pvt);
      hide Valid, NoData, Erased;
      if !env.accepts(e) || e !in expando || expando[e] !in cache { return; }
      var id := expando[e];
      var en := cache[id];
      if !key.Whole? && key != Named("") {
        if key.EventData? {
          en := en.(events := None);
        } else {
          ErasedEvents(env, en, key.name, pvt);
          en := Erased(env, en, key.name, pvt);
        }
        cache := cache[id := en];
        if (if pvt then !NoData(en) else en.data.Some? && en.data.value != map[]) { return; }
      }
      if !pvt {
        en := en.(data := None);
        cache := cache[id := en];
        if !NoData(en) { return; }
      }
      FreedAfterPut(s, e, en);
      PutSame(s, e);
      PutIsValid(s, e, en);
      assert State() == Put(s, e, en);
      CleanOne(e, true);
    }

    /** event.remove( e, event ), whose loop over the handlers is StopListening */
    method EventRemove(e: nat, event: string)
      requires Valid(State())
      modifies this
      ensures State() == Apply(env, old(State()), Op.Unlisten(e, event))
      ensures Weight(State(), e) <= Weight(old(State()), e)
      decreases Weight(State(), e), 2
    {
      ghost var s := State();
      UnlistenWeight(env, s, e, event);
      UnlistenCases(env, s, e, event);
      hide Weight, Valid, Apply, StopListening;
      if !env.accepts(e) || e !in expando || expando[e] !in cache { return; }
      var en := cache[expando[e]];
      if NoData(en) || en.events.None? { return; }
      var m := StopListening(en.events.value, event);
      if m != map[] {
        SetEntry(e, en.(events := Some(m)));
      } else {
        PositiveWeight(s, e);
        PutIsValid(s, e, en.(events := Some(m), handle := false));
        SetEntry(e, en.(events := Some(m), handle := false));
        RemoveData(e, EventData, true);
      }
    }

    /** cleanData( [ e ], force ): whatever the handlers of special events lead to, the id is given back once. */
    method CleanOne(e: nat, force: bool)
      requires Valid(State())
      modifies this
      ensures State() == if force || env.accepts(e) then Freed(old(State()), e) else old(State())
      decreases Weight(State(), e), 3
    {
      ghost var s := State();
      if !(force || env.accepts(e)) || e !in expando || expando[e] !in cache { return; }
      var id := expando[e];
      var en := cache[id];
      PutSame(s, e);
      if en.events.Some? {
        var types := en.events.value.Keys;
        while types != {}
          invariant Valid(State())
          invariant State() == Freed(s, e) || (EntryOf(State(), e).Some? && State() == Put(s, e, EntryOf(State(), e).value))
          invariant Weight(State(), e) <= Weight(s, e)
          decreases |types|
        {
          var event :| event in types;
          types := types - {event};
          // a type is visited only while it is a key of the live object
          if e in expando && id in cache && cache[id].events.Some? && event in cache[id].events.value && event in env.special {
            ghost var t := State();
            EventRemove(e, event);
            ApplyKeeps(env, t, Op.Unlisten(e, event));
            UnlistenOutcome(env, s, t, e, event);
          }
        }
      }
      if e in expando && id in cache {
        FreedAfterPut(s, e, cache[id]);
        cache, expando := cache - {id}, expando - {e};
        deletedIds := deletedIds + [id];
      }
    }

    /** cleanData( elems ) */
    method CleanData(elems: seq<nat>)
      requires Valid(State())
      modifies this
      ensures State() == FreedAll(env, old(State()), elems) && Valid(State())
    {
      ghost var s := State();
      var i := 0;
      while i < |elems|
        invariant i <= |elems| && Valid(State()) && State() == FreedAll(env, s, elems[..i])
      {
        assert elems[..i + 1][..i] == elems[..i];
        FreedIsValid(State(), elems[i]);
        CleanOne(elems[i], false);
        i := i + 1;
      }
      assert elems[..i] == elems;
    }
  }

  lemma UnlistenOutcome(env: Env, s: Store, t: Store, e: nat, event: string)
    requires EntryOf(s, e).Some? && EntryOf(t, e).Some? && t == Put(s, e, EntryOf(t, e).value)
    ensures var u := Apply(env, t, Op.Unlisten(e, event));
      u == Freed(s, e) || (EntryOf(u, e).Some? && u == Put(s, e, EntryOf(u, e).value))
  {
    hide StopListening;
    var en := Shrink(env, EntryOf(t, e).value, Op.Unlisten(e, event));
    hide Shrink;
    if !env.accepts(e) {
    } else if en.Some? {
      PutPut(s, e, EntryOf(t, e).value, en.value);
    } else {
      FreedAfterPut(s, e, EntryOf(t, e).value);
    }
  }
}
