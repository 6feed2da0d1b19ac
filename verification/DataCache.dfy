/** jQuery's data store: ids on elements, entries in a cache, and ids that are handed out again. */
module DataCache {
  import opened Prelude

  datatype Val = Null | Num(n: int)

  type Fields = map<string, Val>

  /** The types of events an element listens to, and for each the types its handlers were registered under. */
  type Listeners = map<string, seq<string>>

  /** A cache entry: its own keys, the user's data, and the event data. */
  datatype Entry = Entry(internal: Fields, data: Option<Fields>, events: Option<Listeners>, handle: bool)

  const EMPTY := Entry(map[], None, None, false)

  /** isEmptyDataObject: nothing but an empty data object. */
  predicate NoData(en: Entry) {
    en.internal == map[] && en.events.None? && !en.handle && (en.data.None? || en.data.value == map[])
  }

  /** The store; expando: the id that stands on an element. */
  datatype Store = Store(cache: map<nat, Entry>, deletedIds: seq<nat>, uuid: nat, expando: map<nat, nat>)

  /** What the store depends on: acceptData, camelCase, splitting at spaces, and the special event types. */
  datatype Env = Env(accepts: nat -> bool, camel: string -> string, words: string -> seq<string>, special: set<string>)

  function EntryOf(s: Store, e: nat): Option<Entry> {
    if e in s.expando && s.expando[e] in s.cache then Some(s.cache[s.expando[e]]) else None
  }

  // ----- the invariant -----

  /** Every id handed out so far is on exactly one element or exactly once among the deleted ones. */
  ghost predicate Valid(s: Store) {
    && (forall e, f :: e in s.expando && f in s.expando && e != f ==> s.expando[e] != s.expando[f])
    && (forall i, j :: 0 <= i < j < |s.deletedIds| ==> s.deletedIds[i] != s.deletedIds[j])
    && (forall e :: e in s.expando ==> s.expando[e] !in s.deletedIds)
    && (forall id :: id in s.cache <==> id in s.expando.Values)
    && (forall id :: Used(s, id) <==> 1 <= id <= s.uuid)
  }

  ghost predicate Used(s: Store, id: int) {
    id >= 0 && (id in s.expando.Values || id in s.deletedIds)
  }

  const NEW := Store(map[], [], 0, map[])

  // ----- transitions -----

  /** The id and entry that data() makes sure of. */
  function Allocated(s: Store, e: nat): Store {
    if e in s.expando then
      if s.expando[e] in s.cache then s else s.(cache := s.cache[s.expando[e] := EMPTY])
    else
      var n := |s.deletedIds|;
      var id := if n > 0 then s.deletedIds[n - 1] else s.uuid + 1;
      s.(expando := s.expando[e := id],
         deletedIds := if n > 0 then s.deletedIds[..n - 1] else [],
         uuid := if n > 0 then s.uuid else id,
         cache := if id in s.cache then s.cache else s.cache[id := EMPTY])
  }

  function Put(s: Store, e: nat, en: Entry): Store {
    if e in s.expando then s.(cache := s.cache[s.expando[e] := en]) else s
  }

  /** What cleanData does to an element that has an entry. */
  function Freed(s: Store, e: nat): Store {
    if EntryOf(s, e).None? then s
    else
      var id := s.expando[e];
      s.(cache := s.cache - {id}, expando := s.expando - {e}, deletedIds := s.deletedIds + [id])
  }

  function UserData(en: Entry): Fields {
    if en.data.Some? then en.data.value else map[]
  }

  function FieldsOf(en: Entry, pvt: bool): Fields {
    if pvt then en.internal else UserData(en)
  }

  /** data( elem, name ) */
  function Read(env: Env, s: Store, e: nat, name: string, pvt: bool): Option<Val> {
    if !env.accepts(e) || EntryOf(s, e).None? then None
    else
      var fields := FieldsOf(EntryOf(s, e).value, pvt);
      if name in fields && fields[name] != Null then Some(fields[name])
      else if env.camel(name) in fields then Some(fields[env.camel(name)]) else None
  }

  /** The keys that removeData deletes: the name as it is, or camelCased, or several words. */
  function KeysFor(env: Env, keys: set<string>, name: string): seq<string> {
    if name in keys then [name]
    else if env.camel(name) in keys then [env.camel(name)]
    else env.words(env.camel(name))
  }

  function Minus(fields: Fields, names: seq<string>): Fields {
    fields - (set n | n in names)
  }

  /** The entry with the named fields gone; the empty name counts as no name and takes them all. */
  function Erased(env: Env, en: Entry, name: string, pvt: bool): Entry {
    if name == "" then if pvt then EMPTY else en.(data := None)
    else if pvt then en.(internal := Minus(en.internal, KeysFor(env, en.internal.Keys, name)))
    else if en.data.None? then en
    else en.(data := Some(Minus(en.data.value, KeysFor(env, en.data.value.Keys, name))))
  }

  function StopListening(m: Listeners, event: string): Listeners {
    if event !in m then m
    else
      var left := Without(m[event], event);
      if left == [] && m[event] != [] then m - {event} else m[event := left]
  }

  /** What removeData removes: everything, also for an empty name, one name (or several words), or the event data. */
  datatype Key = Whole | Named(name: string) | EventData

  /** data with a value or an object, removeData, the registration of a handler, event.remove( e, event ), cleanData */
  datatype Op =
    | Write(e: nat, name: string, v: Val, pvt: bool)
    | Merge(e: nat, more: Fields, pvt: bool)
    | Remove(e: nat, key: Key, pvt: bool)
    | Listen(e: nat, event: string, origType: string)
    | Unlisten(e: nat, event: string)
    | Clean(e: nat)

  predicate IsEdit(op: Op) {
    op.Write? || op.Merge? || op.Listen?
  }

  /** The entry after data( e, name, v ), data( e, { ... } ), whose keys are taken as they are, or event.add. */
  function Edit(env: Env, en: Entry, op: Op): Entry
    requires IsEdit(op)
  {
    match op
    case Write(_, name, v, pvt) => WithFields(en, pvt, map[env.camel(name) := v])
    case Merge(_, more, pvt) => WithFields(en, pvt, more)
    case Listen(_, event, origType) =>
      var m := if en.events.Some? then en.events.value else map[];
      var origs := (if event in m then m[event] else []) + [origType];
      en.(events := Some(m[event := origs]), handle := true)
  }

  function WithFields(en: Entry, pvt: bool, more: Fields): Entry {
    if pvt then en.(internal := en.internal + more) else en.(data := Some(UserData(en) + more))
  }

  /** The entry after removeData, event.remove or cleanData; None: it is destroyed and the id given back. */
  function Shrink(env: Env, en: Entry, op: Op): Option<Entry>
    requires !IsEdit(op)
  {
    match op
    case Remove(_, key, pvt) => Shrunk(env, en, key, pvt)
    case Unlisten(_, event) =>
      if en.events.None? then Some(en)
      else
        var m := StopListening(en.events.value, event);
        if m != map[] then Some(en.(events := Some(m)))
        else Shrunk(env, en.(events := Some(m), handle := false), EventData, true)
    case Clean(_) => None
  }

  function Shrunk(env: Env, en: Entry, key: Key, pvt: bool): Option<Entry> {
    var left := match key
      case Whole => en
      case Named(name) => Erased(env, en, name, pvt)
      case EventData => en.(events := None);
    if !key.Whole? && (if pvt then !NoData(left) else left.data.Some? && left.data.value != map[]) then Some(left)
    else
      var bare := if pvt then left else left.(data := None);
      if !pvt && !NoData(bare) then Some(bare) else None
  }

  function Apply(env: Env, s: Store, op: Op): Store {
    var e := op.e;
    if !env.accepts(e) then s
    else if IsEdit(op) then
      var t := Allocated(s, e);
      if EntryOf(t, e).None? then t else Put(t, e, Edit(env, EntryOf(t, e).value, op))
    else if EntryOf(s, e).None? then s
    else
      var en := Shrink(env, EntryOf(s, e).value, op);
      if en.Some? then Put(s, e, en.value) else Freed(s, e)
  }

  function Run(env: Env, ops: seq<Op>): Store {
    if ops == [] then NEW else Apply(env, Run(env, ops[..|ops| - 1]), ops[|ops| - 1])
  }

  // ----- what every transition keeps -----

  /** Nothing changes for other elements. */
  ghost predicate Apart(s: Store, t: Store, e: nat) {
    forall f :: f != e ==> (f in s.expando <==> f in t.expando) && EntryOf(s, f) == EntryOf(t, f)
  }

  lemma AllocatedIsValid(s: Store, e: nat)
    requires Valid(s)
    ensures var t := Allocated(s, e);
      && Valid(t) && Apart(s, t, e) && e in t.expando
      && EntryOf(t, e) == if e in s.expando then EntryOf(s, e) else Some(EMPTY)
  {
    var t := Allocated(s, e);
    if e in s.expando {
      assert s.expando[e] in s.cache;
    } else {
      IdIsFree(s, e);
      NewIdValues(s.expando, e, t.expando[e]);
    }
  }

  /** The id for a new element is on no element, and afterwards no longer among the deleted ones. */
  lemma IdIsFree(s: Store, e: nat)
    requires Valid(s) && e !in s.expando
    ensures var t := Allocated(s, e); var id := t.expando[e];
      && id !in s.expando.Values && id !in s.cache && id !in t.deletedIds
      && (forall x :: x in t.deletedIds ==> x in s.deletedIds)
      && (forall x: int :: Used(t, x) <==> Used(s, x) || x == id)
      && t.uuid >= s.uuid && (t.uuid > s.uuid ==> id == t.uuid == s.uuid + 1) && (t.uuid == s.uuid ==> Used(s, id))
  {
    var t := Allocated(s, e);
    var n := |s.deletedIds|;
    var id := t.expando[e];
    assert Used(s, id) <==> 1 <= id <= s.uuid;
    if n > 0 { assert id in s.deletedIds; } else { assert !Used(s, id); }
    NewIdValues(s.expando, e, id);
    assert forall x :: x in s.deletedIds <==> x in t.deletedIds || (n > 0 && x == id);
  }

  lemma NewIdValues(m: map<nat, nat>, e: nat, id: nat)
    requires e !in m
    ensures forall x :: x in m[e := id].Values <==> x in m.Values || x == id
  {
    var now := m[e := id];
    assert e in now && now[e] == id;
    forall x | x in m.Values ensures x in now.Values {
      var f :| f in m && m[f] == x;
      assert f in now && now[f] == x;
    }
  }

  lemma PutIsValid(s: Store, e: nat, en: Entry)
    requires Valid(s)
    ensures var t := Put(s, e, en); Valid(t) && Apart(s, t, e) && (e in s.expando ==> EntryOf(t, e) == Some(en))
  {
    var t := Put(s, e, en);
    assert forall x :: Used(t, x) <==> Used(s, x);
  }

  lemma FreedIsValid(s: Store, e: nat)
    requires Valid(s)
    ensures var t := Freed(s, e); Valid(t) && Apart(s, t, e) && e !in t.expando
  {
    var t := Freed(s, e);
    if e in s.expando {
      var id := s.expando[e];
      forall x ensures x in s.expando.Values <==> x in t.expando.Values || x == id {
        if x in s.expando.Values && x != id {
          var f :| f in s.expando && s.expando[f] == x;
          assert f in t.expando && t.expando[f] == x;
        }
      }
      assert forall x :: Used(t, x) <==> Used(s, x);
    }
  }

  lemma ApartTwice(s: Store, t: Store, u: Store, e: nat)
    requires Apart(s, t, e) && Apart(t, u, e)
    ensures Apart(s, u, e)
  {
  }

  lemma EditKeeps(s: Store, e: nat, en: Entry)
    requires Valid(s)
    ensures var t := Put(Allocated(s, e), e, en); Valid(t) && Apart(s, t, e)
  {
    AllocatedIsValid(s, e);
    hide Valid, Apart, Allocated, Put;
    PutIsValid(Allocated(s, e), e, en);
    ApartTwice(s, Allocated(s, e), Put(Allocated(s, e), e, en), e);
  }

  /** Every operation keeps the invariant and touches one element only. */
  lemma ApplyKeeps(env: Env, s: Store, op: Op)
    requires Valid(s)
    ensures Valid(Apply(env, s, op)) && Apart(s, Apply(env, s, op), op.e)
  {
    var e := op.e;
    assert Apart(s, s, e);
    hide Valid, Apart, Allocated, Put, Freed, Edit, Shrink, EntryOf;
    if !env.accepts(e) {
    } else if IsEdit(op) {
      AllocatedIsValid(s, e);
      var en := EntryOf(Allocated(s, e), e);
      if en.Some? { EditKeeps(s, e, Edit(env, en.value, op)); }
    } else if EntryOf(s, e).Some? {
      var en := Shrink(env, EntryOf(s, e).value, op);
      if en.Some? { PutIsValid(s, e, en.value); } else { FreedIsValid(s, e); }
    }
  }

  /** In every reachable state the ids are distinct, accounted for and at most uuid. */
  lemma {:induction false} RunIsValid(env: Env, ops: seq<Op>)
    ensures Valid(Run(env, ops))
  {
    hide Apply;
    if ops != [] {
      RunIsValid(env, ops[..|ops| - 1]);
      ApplyKeeps(env, Run(env, ops[..|ops| - 1]), ops[|ops| - 1]);
    } else {
      assert forall id :: !Used(NEW, id);
    }
  }

  // ----- what a read sees -----

  /** What an operation makes of the entry of its element depends on nothing but that entry. */
  lemma ApplyIsLocal(env: Env, s: Store, t: Store, op: Op)
    requires Valid(s) && Valid(t) && EntryOf(s, op.e) == EntryOf(t, op.e)
    ensures EntryOf(Apply(env, s, op), op.e) == EntryOf(Apply(env, t, op), op.e)
  {
    ApplyEntry(env, s, op);
    ApplyEntry(env, t, op);
    hide Apply;
  }

  /** The new entry as a function of the old one. */
  function Next(env: Env, en: Option<Entry>, op: Op): Option<Entry> {
    if !env.accepts(op.e) then en
    else if IsEdit(op) then Some(Edit(env, if en.Some? then en.value else EMPTY, op))
    else if en.None? then None
    else Shrink(env, en.value, op)
  }

  lemma ApplyEntry(env: Env, s: Store, op: Op)
    requires Valid(s)
    ensures EntryOf(Apply(env, s, op), op.e) == Next(env, EntryOf(s, op.e), op)
  {
    var e := op.e;
    LiveIffEntry(s, e);
    hide Valid, Apart, Allocated, Put, Freed, Edit, Shrink, EntryOf;
    if IsEdit(op) {
      AllocatedIsValid(s, e);
      var t := Allocated(s, e);
      PutEntry(t, e, Edit(env, EntryOf(t, e).value, op));
    } else if EntryOf(s, e).Some? {
      var en := Shrink(env, EntryOf(s, e).value, op);
      if en.Some? { PutEntry(s, e, en.value); } else { FreedEntry(s, e); }
    }
  }

  lemma LiveIffEntry(s: Store, e: nat)
    requires Valid(s)
    ensures e in s.expando <==> EntryOf(s, e).Some?
  {
  }

  lemma PutEntry(s: Store, e: nat, en: Entry)
    requires e in s.expando
    ensures EntryOf(Put(s, e, en), e) == Some(en)
  {
  }

  lemma FreedEntry(s: Store, e: nat)
    ensures EntryOf(Freed(s, e), e) == None
  {
  }

  function OnlyFor(ops: seq<Op>, f: nat): seq<Op> {
    Filter(ops, (op: Op) => op.e == f)
  }

  /** What is stored for an element is what the operations on it, alone, would have stored. */
  lemma {:induction false} ElementsAreIsolated(env: Env, ops: seq<Op>, f: nat)
    ensures EntryOf(Run(env, ops), f) == EntryOf(Run(env, OnlyFor(ops, f)), f)
  {
    hide Apply, Valid, EntryOf;
    if ops != [] {
      var n := |ops| - 1;
      var last := ops[n];
      ElementsAreIsolated(env, ops[..n], f);
      FilterConcat(ops[..n], [last], (op: Op) => op.e == f);
      FilterCons(last, [], (op: Op) => op.e == f);
      assert ops == ops[..n] + [last] && [last] + [] == [last];
      var s, t := Run(env, ops[..n]), Run(env, OnlyFor(ops[..n], f));
      RunIsValid(env, ops[..n]);
      RunIsValid(env, OnlyFor(ops[..n], f));
      assert OnlyFor(ops, f) == OnlyFor(ops[..n], f) + if last.e == f then [last] else [];
      if last.e == f {
        ApplyIsLocal(env, s, t, last);
        assert (OnlyFor(ops[..n], f) + [last])[..|OnlyFor(ops[..n], f)|] == OnlyFor(ops[..n], f);
      } else {
        assert OnlyFor(ops[..n], f) + [] == OnlyFor(ops[..n], f);
        ApplyKeeps(env, s, last);
      }
    }
  }

  /** An element that gets an id, new or recycled, starts with an empty entry. */
  lemma RecycledIdStartsEmpty(env: Env, ops: seq<Op>, e: nat)
    requires e !in Run(env, ops).expando
    ensures var t := Allocated(Run(env, ops), e); EntryOf(t, e) == Some(EMPTY) && t.expando[e] !in Run(env, ops).expando.Values
  {
    RunIsValid(env, ops);
    AllocatedIsValid(Run(env, ops), e);
    var s := Run(env, ops);
    var t := Allocated(s, e);
    assert Used(s, t.expando[e]) <==> 1 <= t.expando[e] <= s.uuid;
  }

  /** A value reads back exactly if no other value is stored under the name as it was given, before camelCasing. */
  lemma ReadsBackIff(env: Env, s: Store, e: nat, name: string, v: Val, pvt: bool)
    requires Valid(s) && env.accepts(e)
    ensures var fields := if EntryOf(s, e).Some? then FieldsOf(EntryOf(s, e).value, pvt) else map[];
      Read(env, Apply(env, s, Write(e, name, v, pvt)), e, name, pvt) == Some(v) <==>
      name == env.camel(name) || name !in fields || fields[name] == Null || fields[name] == v
  {
    ApplyEntry(env, s, Write(e, name, v, pvt));
    hide Apply, EntryOf;
  }

  /** Removing a name leaves nothing to read under it, unless the name was stored both as given and camelCased. */
  lemma RemovedReadsNothingIff(env: Env, s: Store, e: nat, name: string, pvt: bool)
    requires Valid(s) && env.accepts(e) && EntryOf(s, e).Some?
    ensures var fields := FieldsOf(EntryOf(s, e).value, pvt);
      Read(env, Apply(env, s, Remove(e, Named(name), pvt)), e, name, pvt) == None <==>
      name == "" || !(name in fields && env.camel(name) in fields && name != env.camel(name))
  {
    ApplyEntry(env, s, Remove(e, Named(name), pvt));
    hide Apply, EntryOf;
    var en := EntryOf(s, e).value;
    if name != "" { ErasedFields(env, en, name, pvt); } else { NothingLeft(env, en, pvt); }
    hide Erased;
  }

  lemma NothingLeft(env: Env, en: Entry, pvt: bool)
    ensures FieldsOf(Erased(env, en, "", pvt), pvt) == map[]
  {
  }

  lemma ErasedFields(env: Env, en: Entry, name: string, pvt: bool)
    requires name != ""
    ensures var left := FieldsOf(Erased(env, en, name, pvt), pvt); var fields := FieldsOf(en, pvt);
      && name !in left && (forall k :: k in left ==> k in fields && left[k] == fields[k])
      && (env.camel(name) in left <==> env.camel(name) in fields && name in fields && name != env.camel(name))
  {
  }

  /** An empty name is no name. */
  lemma EmptyNameIsWhole(env: Env, s: Store, e: nat, pvt: bool)
    ensures Apply(env, s, Remove(e, Named(""), pvt)) == Apply(env, s, Remove(e, Whole, pvt))
  {
  }

  // ----- what an operation leaves of the entry -----

  /** All that is stored for e as data of one kind; an element without an entry has none. */
  function Stored(s: Store, e: nat, pvt: bool): Fields {
    if EntryOf(s, e).Some? then FieldsOf(EntryOf(s, e).value, pvt) else map[]
  }

  function EventsOf(s: Store, e: nat): Option<Listeners> {
    if EntryOf(s, e).Some? then EntryOf(s, e).value.events else None
  }

  function HandleOf(s: Store, e: nat): bool {
    EntryOf(s, e).Some? && EntryOf(s, e).value.handle
  }

  /** Nothing of e but its data of this kind differs. */
  ghost predicate OnlyData(s: Store, t: Store, e: nat, pvt: bool) {
    Stored(t, e, !pvt) == Stored(s, e, !pvt) && EventsOf(t, e) == EventsOf(s, e) && HandleOf(t, e) == HandleOf(s, e)
  }

  /** Nothing at all is stored for e. */
  ghost predicate Bare(s: Store, e: nat) {
    Stored(s, e, true) == map[] && Stored(s, e, false) == map[] && EventsOf(s, e).None? && !HandleOf(s, e)
  }

  /**
   Removing a name takes away the key that is spelled like it; if there is none, the
   camelCased key; if there is none either, the words of the camelCased name. All
   other keys, the data of the other kind and the event data stay.
   */
  lemma RemoveKeepsOthers(env: Env, s: Store, e: nat, name: string, pvt: bool)
    requires Valid(s) && env.accepts(e) && EntryOf(s, e).Some? && name != ""
    ensures var t := Apply(env, s, Remove(e, Named(name), pvt));
      var before, after := Stored(s, e, pvt), Stored(t, e, pvt);
      && OnlyData(s, t, e, pvt)
      && (name in before ==> after == before - {name})
      && (name !in before && env.camel(name) in before ==> after == before - {env.camel(name)})
      && (name !in before && env.camel(name) !in before ==> after == before - (set w | w in env.words(env.camel(name))))
  {
    ApplyEntry(env, s, Remove(e, Named(name), pvt));
    hide Apply, EntryOf;
  }

  /** Removing without a name takes all data of the kind, and private data with everything else. */
  lemma RemoveAll(env: Env, s: Store, e: nat, pvt: bool)
    requires Valid(s) && env.accepts(e) && EntryOf(s, e).Some?
    ensures var t := Apply(env, s, Remove(e, Whole, pvt));
      if pvt then e !in t.expando && Bare(t, e) else Stored(t, e, false) == map[] && OnlyData(s, t, e, false)
  {
    ApplyEntry(env, s, Remove(e, Whole, pvt));
    ApplyKeeps(env, s, Remove(e, Whole, pvt));
    LiveIffEntry(Apply(env, s, Remove(e, Whole, pvt)), e);
    hide Apply, EntryOf, Valid;
  }

  /** Removing a name destroys the entry, and gives the id back, exactly when nothing is stored any more. */
  lemma DestroyedIffEmpty(env: Env, s: Store, e: nat, name: string, pvt: bool)
    requires Valid(s) && env.accepts(e) && EntryOf(s, e).Some?
    ensures var t := Apply(env, s, Remove(e, Named(name), pvt));
      && (e !in t.expando <==> Bare(t, e))
      && (e !in t.expando ==> s.expando[e] in t.deletedIds && s.expando[e] !in t.cache)
  {
    var op := Remove(e, Named(name), pvt);
    ApplyEntry(env, s, op);
    ApplyKeeps(env, s, op);
    LiveIffEntry(Apply(env, s, op), e);
    if e !in Apply(env, s, op).expando { IdGivenBack(env, s, op); }
    hide Apply, EntryOf, Valid;
  }

  /** An element that loses its entry gives its id back. */
  lemma IdGivenBack(env: Env, s: Store, op: Op)
    requires Valid(s) && op.e in s.expando && op.e !in Apply(env, s, op).expando
    ensures var t := Apply(env, s, op); s.expando[op.e] in t.deletedIds && s.expando[op.e] !in t.cache
  {
  }

  /** Writing a value sets the camelCased key and nothing else. */
  lemma WriteKeepsOthers(env: Env, s: Store, e: nat, name: string, v: Val, pvt: bool)
    requires Valid(s) && env.accepts(e)
    ensures var t := Apply(env, s, Write(e, name, v, pvt));
      OnlyData(s, t, e, pvt) && Stored(t, e, pvt) == Stored(s, e, pvt)[env.camel(name) := v]
  {
    ApplyEntry(env, s, Write(e, name, v, pvt));
    hide Apply, EntryOf;
  }

  /** An object sets its keys and no others. */
  lemma MergeKeepsOthers(env: Env, s: Store, e: nat, more: Fields, pvt: bool)
    requires Valid(s) && env.accepts(e)
    ensures var t := Apply(env, s, Merge(e, more, pvt));
      OnlyData(s, t, e, pvt) && Stored(t, e, pvt) == Stored(s, e, pvt) + more
  {
    ApplyEntry(env, s, Merge(e, more, pvt));
    hide Apply, EntryOf;
  }

  function OriginsIn(m: Option<Listeners>, event: string): seq<string> {
    if m.Some? && event in m.value then m.value[event] else []
  }

  /** A handler is put behind those of its event type; neither other types nor data change. */
  lemma ListenKeepsOthers(env: Env, s: Store, e: nat, event: string, orig: string)
    requires Valid(s) && env.accepts(e)
    ensures var t := Apply(env, s, Listen(e, event, orig));
      && HandleOf(t, e) && EventsOf(t, e).Some?
      && (forall pvt :: Stored(t, e, pvt) == Stored(s, e, pvt))
      && (forall other :: OriginsIn(EventsOf(t, e), other) == OriginsIn(EventsOf(s, e), other) + if other == event then [orig] else [])
  {
    ApplyEntry(env, s, Listen(e, event, orig));
    hide Apply, EntryOf;
  }

  /**
   event.remove for one type takes away the handlers registered under exactly that
   type. When no type is left the event data and the handle go, and with them the
   entry if no data is stored either.
   */
  lemma UnlistenKeepsOthers(env: Env, s: Store, e: nat, event: string)
    requires Valid(s) && env.accepts(e) && EntryOf(s, e).Some? && EventsOf(s, e).Some?
    ensures var t := Apply(env, s, Unlisten(e, event));
      && (forall pvt :: Stored(t, e, pvt) == Stored(s, e, pvt))
      && (forall other :: OriginsIn(EventsOf(t, e), other)
           == if other == event then Without(OriginsIn(EventsOf(s, e), event), event) else OriginsIn(EventsOf(s, e), other))
      && (EventsOf(t, e).None? ==> !HandleOf(t, e) && (e !in t.expando <==> Bare(t, e)))
      && (EventsOf(t, e).Some? ==> HandleOf(t, e) == HandleOf(s, e))
  {
    forall other { StopsOnly(EventsOf(s, e).value, event, other); }
    ApplyEntry(env, s, Unlisten(e, event));
    ApplyKeeps(env, s, Unlisten(e, event));
    LiveIffEntry(Apply(env, s, Unlisten(e, event)), e);
    hide Apply, EntryOf, Valid, StopListening, Without, Erased, OriginsIn;
  }

  lemma StopsOnly(m: Listeners, event: string, other: string)
    ensures var left := StopListening(m, event);
      OriginsIn(if left == map[] then None else Some(left), other)
        == if other == event then Without(OriginsIn(Some(m), event), event) else OriginsIn(Some(m), other)
  {
    var left := StopListening(m, event);
    assert left == map[] ==> OriginsIn(Some(left), other) == [];
  }

  /** Cleaning an element destroys its entry and gives its id back. */
  lemma CleanFrees(env: Env, s: Store, e: nat)
    requires Valid(s) && env.accepts(e) && EntryOf(s, e).Some?
    ensures var t := Apply(env, s, Clean(e));
      e !in t.expando && Bare(t, e) && s.expando[e] in t.deletedIds && s.expando[e] !in t.cache
  {
    ApplyEntry(env, s, Clean(e));
    ApplyKeeps(env, s, Clean(e));
    LiveIffEntry(Apply(env, s, Clean(e)), e);
    IdGivenBack(env, s, Clean(e));
    hide Apply, EntryOf, Valid;
  }

  /** Keys of an object are stored as they are, so a later write under such a key can be hidden by it. */
  lemma MergedKeyHidesWrite(env: Env, e: nat, name: string)
    requires env.accepts(e) && env.camel(name) != name
    ensures var ops := [Merge(e, map[name := Num(1)], false), Write(e, name, Num(2), false)];
      Read(env, Run(env, ops), e, name, false) == Some(Num(1))
  {
    var merge, write := Merge(e, map[name := Num(1)], false), Write(e, name, Num(2), false);
    var t := Apply(env, NEW, merge);
    RunTwo(env, merge, write);
    RunIsValid(env, []);
    ApplyEntry(env, NEW, merge);
    ApplyKeeps(env, NEW, merge);
    ApplyEntry(env, t, write);
    hide Apply, Run, Valid, Apart, EntryOf;
  }

  lemma RunTwo(env: Env, a: Op, b: Op)
    ensures Run(env, [a, b]) == Apply(env, Apply(env, NEW, a), b)
  {
    hide Apply;
    assert [a, b][..1] == [a] && [a][..0] == [];
    assert Run(env, [a]) == Apply(env, Run(env, []), a);
  }


  /** On a node that takes no data, and when there is nothing to remove, nothing happens. */
  lemma NothingHappens(env: Env, s: Store, op: Op)
    requires Valid(s)
    requires !env.accepts(op.e) || (!IsEdit(op) && EntryOf(s, op.e).None?) || (op.Unlisten? && EventsOf(s, op.e).None?)
    ensures Apply(env, s, op) == s
  {
    if env.accepts(op.e) && EntryOf(s, op.e).Some? {
      assert s.cache[s.expando[op.e] := EntryOf(s, op.e).value] == s.cache;
    }
  }

  // ----- how many ids are ever used -----

  /** The largest number of elements that had an entry at the same time. */
  function Peak(env: Env, ops: seq<Op>): nat {
    if ops == [] then 0
    else
      var before, now := Peak(env, ops[..|ops| - 1]), |Run(env, ops).expando|;
      if now > before then now else before
  }

  /** As many ids are on elements or waiting to be used again as were ever made; a new one is made only when none is waiting. */
  predicate Economical(s: Store, t: Store) {
    |t.expando| + |t.deletedIds| == t.uuid && t.uuid == if |t.expando| > s.uuid then |t.expando| else s.uuid
  }

  lemma AllocatedId(s: Store, e: nat)
    requires |s.expando| + |s.deletedIds| == s.uuid
    ensures Economical(s, Allocated(s, e))
  {
    var t := Allocated(s, e);
    if e !in s.expando { assert |t.expando| == |s.expando| + 1 by { MoreKeys(s.expando, e, t.expando[e]); } }
  }

  lemma FreedId(s: Store, e: nat)
    requires |s.expando| + |s.deletedIds| == s.uuid
    ensures Economical(s, Freed(s, e))
  {
    var t := Freed(s, e);
    if EntryOf(s, e).Some? {
      assert s.expando == t.expando[e := s.expando[e]];
      MoreKeys(t.expando, e, s.expando[e]);
    }
  }

  lemma MoreKeys(m: map<nat, nat>, e: nat, id: nat)
    requires e !in m
    ensures |m[e := id]| == |m| + 1
  {
    assert m[e := id].Keys == m.Keys + {e};
  }

  lemma OneId(env: Env, s: Store, op: Op)
    requires |s.expando| + |s.deletedIds| == s.uuid
    ensures Economical(s, Apply(env, s, op))
  {
    hide Shrink, Edit, Allocated, Freed;
    AllocatedId(s, op.e);
    FreedId(s, op.e);
  }

  /** In every run: ids are used again before a new one is made, so the largest id ever given is the largest number of elements with data at one time. */
  lemma {:induction false} IdsAreReused(env: Env, ops: seq<Op>)
    ensures var s := Run(env, ops);
      s.uuid == Peak(env, ops) && |s.expando| + |s.deletedIds| == s.uuid
  {
    if ops != [] {
      var n := |ops| - 1;
      IdsAreReused(env, ops[..n]);
      OneId(env, Run(env, ops[..n]), ops[n]);
    }
  }
}
