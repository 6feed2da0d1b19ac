/**
 What an operation on a Deferred means for the rest of the system: its status,
 the observers still due on the done and fail sides, which lists are firing, and
 which client callback is started with which argument.
 */
module DeferredEffects {
  import opened Prelude
  import opened Observers
  import opened Deferred
  import opened DeferredRuns

  /** The registered observers of the done or fail side that can still be called. */
  function Due(d: Dfd, k: Kind): seq<Observer> {
    var s := Get(d, k);
    if k == Progress then []
    else if d.state == Pending then s.added
    else if k == Settler(d) && |s.calls| <= |s.added| then s.added[|s.calls|..]
    else []
  }

  function Firing(d: Dfd, k: Kind): bool {
    Get(d, k).list.firing
  }

  function Argument(d: Dfd, k: Kind): Val {
    var c := Get(d, k).list.current;
    if c.Some? then c.value else Undefined
  }

  /** Nothing changes in what is due, except perhaps on side k. */
  ghost predicate DueElsewhere(d: Dfd, r: Dfd, k: Kind) {
    (k != Done ==> Due(r, Done) == Due(d, Done)) && (k != Fail ==> Due(r, Fail) == Due(d, Fail))
  }

  /** Common to all operations on side k that find `suspended` to be the control state of its list. */
  ghost predicate Effect(d: Dfd, k: Kind, r: (Dfd, Option<Observer>), suspended: bool) {
    && DInv(r.0)
    && (StatusOf(d).Settled? ==> StatusOf(r.0) == StatusOf(d))
    && (r.1.Some? ==> !suspended && Firing(r.0, k))
    && (r.1.None? ==> Firing(r.0, k) == suspended)
    && (k != Done ==> Firing(r.0, Done) == Firing(d, Done))
    && (k != Fail ==> Firing(r.0, Fail) == Firing(d, Fail))
    && (k != Progress ==> Firing(r.0, Progress) == Firing(d, Progress))
    && (k != Progress && r.1.Some? ==> StatusOf(r.0) == Settled(k, Argument(r.0, k)))
  }

  lemma FireEffect(d: Dfd, k: Kind, v: Val)
    requires DInv(d)
    ensures var r := FireD(d, k, v);
      && Effect(d, k, r, Firing(d, k))
      && r.0.progress.added == d.progress.added
      && (k == Progress ==>
        && StatusOf(r.0) == StatusOf(d) && DueElsewhere(d, r.0, Progress)
        && (r.1.Some? ==> r.1.value in d.progress.added))
  {
    if d.state != Pending { FireSettled(d, k, v); }
    else if k == Progress { FireProgress(d, v); }
    else { SettleEffect(d, k, v); SettleFlags(d, k, v); }
  }

  lemma SettleFlags(d: Dfd, k: Kind, v: Val)
    requires DInv(d) && d.state == Pending && k != Progress
    requires var r := FireD(d, k, v);
      && DInv(r.0) && StatusOf(r.0) == Settled(k, v) && Settles(d, r.0)
    ensures Firing(FireD(d, k, v).0, Other(k)) == Firing(d, Other(k)) == false
    ensures Firing(FireD(d, k, v).0, Progress) == Firing(d, Progress)
    ensures Firing(FireD(d, k, v).0, k) ==> Argument(FireD(d, k, v).0, k) == v
  {
  }

  /** resolve or reject: ignored once settled, otherwise the due observers of that side start to run. */
  lemma SettleDue(d: Dfd, k: Kind, v: Val)
    requires DInv(d) && k != Progress
    ensures var r := FireD(d, k, v);
      && (d.state != Pending ==> r == (d, None))
      && (d.state == Pending ==>
        && StatusOf(r.0) == Settled(k, v)
        && Due(r.0, Other(k)) == []
        && (if Due(d, k) == [] then r.1 == None && Due(r.0, k) == []
            else r.1 == Some(Due(d, k)[0]) && Due(r.0, k) == Due(d, k)[1..]))
  {
    if d.state != Pending { FireSettled(d, k, v); }
    else { SettleEffect(d, k, v); }
  }

  lemma OnSideMeans(d: Dfd, r: (Dfd, Option<Observer>), k: Kind)
    requires OnSide(d, r, k) && DInv(r.0)
    ensures DueElsewhere(d, r.0, k)
    ensures k != Done ==> Firing(r.0, Done) == Firing(d, Done)
    ensures k != Fail ==> Firing(r.0, Fail) == Firing(d, Fail)
    ensures k != Progress ==> Firing(r.0, Progress) == Firing(d, Progress)
    ensures k != Progress ==> r.0.progress.added == d.progress.added
    ensures k != Progress && r.1.Some? ==> StatusOf(r.0) == Settled(k, Argument(r.0, k))
  {
  }

  lemma AddEffectProgress(d: Dfd, o: Observer)
    requires DInv(d)
    ensures var r := AddD(d, Progress, o);
      && Effect(d, Progress, r, Firing(d, Progress))
      && StatusOf(r.0) == StatusOf(d)
      && DueElsewhere(d, r.0, Progress)
      && r.0.progress.added == d.progress.added + [o]
      && (r.1.Some? ==> r.1.value == o)
  {
    AddProgress(d, o);
    OnSideMeans(d, AddD(d, Progress, o), Progress);
  }

  lemma AddEffectSettling(d: Dfd, k: Kind, o: Observer)
    requires DInv(d) && k != Progress
    ensures var r := AddD(d, k, o);
      && Effect(d, k, r, Firing(d, k))
      && StatusOf(r.0) == StatusOf(d)
      && DueElsewhere(d, r.0, k)
      && r.0.progress.added == d.progress.added
      && (r.1.Some? ==> r.1.value == o)
  {
    var r := AddD(d, k, o);
    if d.state == Pending {
      AddWaiting(d, k, o);
    } else if k == Settler(d) {
      AddSettled(d, k, o);
    } else {
      AddShut(d, k, o);
    }
    OnSideMeans(d, r, k);
  }

  lemma AddEffect(d: Dfd, k: Kind, o: Observer)
    requires DInv(d)
    ensures var r := AddD(d, k, o);
      && Effect(d, k, r, Firing(d, k))
      && StatusOf(r.0) == StatusOf(d)
      && DueElsewhere(d, r.0, k)
      && r.0.progress.added == d.progress.added + (if k == Progress then [o] else [])
      && (r.1.Some? ==> r.1.value == o)
  {
    if k == Progress { AddEffectProgress(d, o); } else { AddEffectSettling(d, k, o); }
  }

  lemma AddDue(d: Dfd, k: Kind, o: Observer)
    requires DInv(d) && k != Progress
    ensures var r := AddD(d, k, o);
      if d.state == Pending || (k == Settler(d) && Firing(d, k)) then r.1 == None && Due(r.0, k) == Due(d, k) + [o]
      else if k == Settler(d) then r.1 == Some(o) && Due(d, k) == Due(r.0, k) == []
      else r.1 == None && Due(d, k) == Due(r.0, k) == []
  {
    var s := Get(d, k);
    if d.state == Pending { AddWaiting(d, k, o); }
    else if k == Settler(d) {
      AddSettled(d, k, o);
      if Firing(d, k) { assert (s.added + [o])[|s.calls|..] == s.added[|s.calls|..] + [o]; }
    } else { AddShut(d, k, o); }
  }

  lemma FinishedEffect(d: Dfd, k: Kind)
    requires DInv(d) && Firing(d, k)
    ensures var r := FinishedD(d, k);
      && Effect(d, k, r, false)
      && StatusOf(r.0) == StatusOf(d)
      && DueElsewhere(d, r.0, k)
      && r.0.progress.added == d.progress.added
      && (k == Progress && r.1.Some? ==> r.1.value in d.progress.added)
  {
    if k == Progress { FinishedProgress(d); } else { FinishedSettled(d, k); }
    OnSideMeans(d, FinishedD(d, k), k);
  }

  lemma FinishedDue(d: Dfd, k: Kind)
    requires DInv(d) && Firing(d, k) && k != Progress
    ensures var r := FinishedD(d, k);
      && (if Due(d, k) == [] then r.1 == None && Due(r.0, k) == []
          else r.1 == Some(Due(d, k)[0]) && Due(r.0, k) == Due(d, k)[1..])
  {
    FinishedSettled(d, k);
    var s := Get(d, k);
    if |s.calls| < |s.added| { assert s.added[|s.calls| + 1..] == s.added[|s.calls|..][1..]; }
  }

  /** Nothing is due on a settled Deferred that is not firing, nor ever on its other side. */
  lemma NothingDue(d: Dfd, k: Kind)
    requires DInv(d) && d.state != Pending && (k == Settler(d) ==> !Firing(d, k))
    ensures Due(d, k) == []
  {
  }

  /** No due observer is lost: it stays due, is called now, or the Deferred settled on the other side. */
  ghost predicate KeepsDue(d: Dfd, k: Kind, r: (Dfd, Option<Observer>)) {
    forall q, x {:trigger x in Due(d, q)} :: q != Progress && x in Due(d, q) ==>
      || x in Due(r.0, q)
      || (q == k && r.1 == Some(x))
      || (StatusOf(r.0).Settled? && StatusOf(r.0).kind != q)
  }

  /** Nobody becomes due but o, if given, on side k; whoever is called was due or is o. */
  ghost predicate OnlyDue(d: Dfd, k: Kind, r: (Dfd, Option<Observer>), o: Option<Observer>) {
    && (forall q, x {:trigger x in Due(r.0, q)} :: q != Progress && x in Due(r.0, q) ==> x in Due(d, q) || (q == k && o == Some(x)))
    && (forall x :: x in r.0.progress.added ==> x in d.progress.added || (k == Progress && o == Some(x)))
    && (r.1.Some? && k != Progress ==> r.1.value in Due(d, k) || o == r.1)
    && (r.1.Some? && k == Progress ==> r.1.value in d.progress.added || o == r.1)
  }

  lemma StillDue(d: Dfd, k: Kind, r: (Dfd, Option<Observer>), q: Kind, x: Observer)
    requires KeepsDue(d, k, r) && q != Progress && x in Due(d, q)
    ensures x in Due(r.0, q) || (q == k && r.1 == Some(x)) || (StatusOf(r.0).Settled? && StatusOf(r.0).kind != q)
  {
    hide Due, StatusOf;
  }

  lemma NewlyDue(d: Dfd, k: Kind, r: (Dfd, Option<Observer>), o: Option<Observer>, q: Kind, x: Observer)
    requires OnlyDue(d, k, r, o) && q != Progress && x in Due(r.0, q) && x !in Due(d, q)
    ensures q == k && o == Some(x)
  {
    hide Due;
  }

  /** Side k hands out its first due observer, if any. */
  ghost predicate Pops(d: Dfd, k: Kind, r: (Dfd, Option<Observer>)) {
    if Due(d, k) == [] then r.1 == None && Due(r.0, k) == []
    else r.1 == Some(Due(d, k)[0]) && Due(r.0, k) == Due(d, k)[1..]
  }

  lemma PopTraffic(d: Dfd, k: Kind, r: (Dfd, Option<Observer>))
    requires k != Progress && Pops(d, k, r)
    requires r.0.progress.added == d.progress.added
    requires if StatusOf(r.0) == StatusOf(d) then DueElsewhere(d, r.0, k)
             else StatusOf(r.0).Settled? && StatusOf(r.0).kind == k && Due(r.0, Other(k)) == []
    ensures KeepsDue(d, k, r) && OnlyDue(d, k, r, None)
  {
    hide Due, StatusOf;
    assert Due(d, k) != [] ==> forall x :: x in Due(d, k) ==> x == Due(d, k)[0] || x in Due(d, k)[1..];
  }

  lemma QuietTraffic(d: Dfd, k: Kind, r: (Dfd, Option<Observer>), o: Option<Observer>)
    requires DueElsewhere(d, r.0, k)
    requires k != Progress ==>
      if r.1 == None then Due(r.0, k) == Due(d, k) || (o.Some? && Due(r.0, k) == Due(d, k) + [o.value])
      else r.1 == o && Due(d, k) == Due(r.0, k)
    requires r.0.progress.added == d.progress.added + (if k == Progress && o.Some? then [o.value] else [])
    requires k == Progress && r.1.Some? ==> r.1.value in d.progress.added || r.1 == o
    ensures KeepsDue(d, k, r) && OnlyDue(d, k, r, o)
  {
    hide Due, StatusOf;
  }

  lemma FireTraffic(d: Dfd, k: Kind, v: Val)
    requires DInv(d)
    ensures KeepsDue(d, k, FireD(d, k, v)) && OnlyDue(d, k, FireD(d, k, v), None)
    ensures StatusOf(FireD(d, k, v).0) ==
      if k == Progress || StatusOf(d).Settled? then StatusOf(d) else Settled(k, v)
  {
    FireEffect(d, k, v);
    if k == Progress {
      hide DInv, FireD, StatusOf;
      QuietTraffic(d, k, FireD(d, k, v), None);
    } else {
      SettleDue(d, k, v);
      assert StatusOf(d).Settled? <==> d.state != Pending;
      hide DInv, FireD, StatusOf;
      if d.state == Pending { PopTraffic(d, k, FireD(d, k, v)); } else { QuietTraffic(d, k, (d, None), None); }
    }
  }

  lemma AddTraffic(d: Dfd, k: Kind, o: Observer)
    requires DInv(d)
    ensures KeepsDue(d, k, AddD(d, k, o)) && OnlyDue(d, k, AddD(d, k, o), Some(o))
    ensures StatusOf(AddD(d, k, o).0) == StatusOf(d)
    ensures k != Progress ==>
      || o in Due(AddD(d, k, o).0, k)
      || AddD(d, k, o).1 == Some(o)
      || (StatusOf(d).Settled? && StatusOf(d).kind != k)
  {
    AddEffect(d, k, o);
    if k != Progress { AddDue(d, k, o); }
    assert d.state != Pending ==> StatusOf(d).Settled? && StatusOf(d).kind == Settler(d);
    hide DInv, AddD, StatusOf;
    QuietTraffic(d, k, AddD(d, k, o), Some(o));
  }

  lemma FinishedTraffic(d: Dfd, k: Kind)
    requires DInv(d) && Firing(d, k)
    ensures KeepsDue(d, k, FinishedD(d, k)) && OnlyDue(d, k, FinishedD(d, k), None)
    ensures StatusOf(FinishedD(d, k).0) == StatusOf(d)
  {
    FinishedEffect(d, k);
    if k != Progress { FinishedDue(d, k); }
    hide DInv, FinishedD, StatusOf;
    if k != Progress { PopTraffic(d, k, FinishedD(d, k)); } else { QuietTraffic(d, k, FinishedD(d, k), None); }
  }

  // ----- how often an observer is due -----

  function One(b: bool): nat { if b then 1 else 0 }

  /** Occurrences of x that are due on the done side, or handed out by the operation. */
  function Held(d: Dfd, up: Option<Observer>, k: Kind, x: Observer): nat {
    Count(Due(d, Done), x) + One(k == Done && up == Some(x))
  }

  /** No occurrence is duplicated, and none is lost unless the Deferred is rejected. */
  ghost predicate Conserves(d: Dfd, k: Kind, r: (Dfd, Option<Observer>), o: Option<Observer>, x: Observer) {
    && Held(r.0, r.1, k, x) <= Held(d, o, k, x)
    && (StatusOf(r.0).Waiting? || StatusOf(r.0).kind != Fail ==> Held(r.0, r.1, k, x) == Held(d, o, k, x))
  }

  lemma CountSnoc(s: seq<Observer>, o: Observer, x: Observer)
    ensures Count(s + [o], x) == Count(s, x) + One(o == x)
  {
    if s == [] {
      assert [] + [o] == [o];
      assert [o][1..] == [];
    } else {
      assert (s + [o])[1..] == s[1..] + [o];
      CountSnoc(s[1..], o, x);
    }
  }

  lemma PopConserves(d: Dfd, r: (Dfd, Option<Observer>), x: Observer)
    requires Pops(d, Done, r)
    ensures Conserves(d, Done, r, None, x)
  {
    hide Due, StatusOf;
  }

  lemma FireConserves(d: Dfd, k: Kind, v: Val, x: Observer)
    requires DInv(d)
    ensures Conserves(d, k, FireD(d, k, v), None, x)
  {
    FireEffect(d, k, v);
    if k != Progress {
      SettleDue(d, k, v);
      assert StatusOf(d).Settled? <==> d.state != Pending;
      hide DInv, FireD, StatusOf, Due;
      if d.state == Pending && k == Done { PopConserves(d, FireD(d, k, v), x); }
    }
    hide DInv, FireD, StatusOf, Due;
  }

  lemma AddConserves(d: Dfd, k: Kind, o: Observer, x: Observer)
    requires DInv(d)
    ensures Conserves(d, k, AddD(d, k, o), Some(o), x)
  {
    if k == Done { AddConservesDone(d, o, x); } else { AddConservesElsewhere(d, k, o, x); }
  }

  lemma AddConservesDone(d: Dfd, o: Observer, x: Observer)
    requires DInv(d)
    ensures Conserves(d, Done, AddD(d, Done, o), Some(o), x)
  {
    AddedOrCalled(d, o);
    hide DInv, AddD, StatusOf, Due;
    CountSnoc(Due(d, Done), o, x);
  }

  /** A done observer becomes due, is called at once, or comes to a rejected Deferred. */
  lemma AddedOrCalled(d: Dfd, o: Observer)
    requires DInv(d)
    ensures var r := AddD(d, Done, o);
      || (r.1 == None && Due(r.0, Done) == Due(d, Done) + [o])
      || (r.1 == Some(o) && Due(r.0, Done) == Due(d, Done))
      || (r.1 == None && Due(r.0, Done) == Due(d, Done) && StatusOf(r.0).Settled? && StatusOf(r.0).kind == Fail)
  {
    AddDue(d, Done, o);
    AddEffect(d, Done, o);
    assert d.state != Pending && Done != Settler(d) ==> StatusOf(d).Settled? && StatusOf(d).kind == Fail;
    hide DInv, AddD, StatusOf, Due;
  }

  lemma AddConservesElsewhere(d: Dfd, k: Kind, o: Observer, x: Observer)
    requires DInv(d) && k != Done
    ensures Conserves(d, k, AddD(d, k, o), Some(o), x)
  {
    AddEffect(d, k, o);
    hide DInv, AddD, StatusOf, Due;
  }

  lemma FinishedConserves(d: Dfd, k: Kind, x: Observer)
    requires DInv(d) && Firing(d, k)
    ensures Conserves(d, k, FinishedD(d, k), None, x)
  {
    FinishedEffect(d, k);
    if k == Done {
      FinishedDue(d, k);
      hide DInv, FinishedD, StatusOf, Due;
      PopConserves(d, FinishedD(d, k), x);
    }
    hide DInv, FinishedD, StatusOf, Due;
  }
}
