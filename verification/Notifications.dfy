/** What one operation on a Deferred does for progress: what is accepted, and who is called with what. */
module Notifications {
  import opened Prelude
  import opened CallbackList
  import opened Observers
  import opened Deferred
  import opened DeferredRuns
  import opened DeferredEffects
  import opened DeferredLife
  import opened DeferredProgress

  /** What a list remembers, replays or has waiting was asked for. */
  ghost predicate Known(l: CList<Cb, Val>) {
    && (l.memory.Some? ==> l.memory.value in l.asked)
    && (l.current.Some? ==> l.current.value in l.asked)
    && (l.stack.Some? ==> forall v :: v in l.stack.value ==> v in l.asked)
  }

  lemma {:induction false} HeadKnown(l: CList<Cb, Val>)
    requires Known(l) && l.firing && l.current.Some? && 0 <= l.firingIndex
    requires l.list.Some? ==> l.firingLength == |l.list.value|
    ensures Known(Head(l)) && Head(l).asked == l.asked
    decreases StackSize(l), 1
  {
    if !(l.list.Some? && l.firingIndex < l.firingLength) { FinishKnown(l); }
  }

  lemma {:induction false} FinishKnown(l: CList<Cb, Val>)
    requires Known(l)
    ensures Known(Finish(l)) && Finish(l).asked == l.asked
    decreases StackSize(l), 0
  {
    if l.list.Some? && l.stack.Some? && |l.stack.value| > 0 {
      assert l.stack.value[0] in l.stack.value;
      HeadKnown(Begin(l.(firing := false, current := None, stack := Some(l.stack.value[1..])), l.stack.value[0], true));
    }
  }

  lemma {:induction false} AddKnown(l: CList<Cb, Val>, cbs: seq<Cb>)
    requires Wf(l) && Known(l)
    ensures Known(Add(l, cbs)) && Add(l, cbs).asked == l.asked
  {
    if l.list.Some? && !l.firing && l.memory.Some? {
      HeadKnown(Begin(l.(list := Some(Appended(l.list.value, cbs, l.options.unique)), firingStart := |l.list.value|), l.memory.value, false));
    }
  }

  lemma {:induction false} FireKnown(l: CList<Cb, Val>, v: Val)
    requires Wf(l) && Known(l)
    ensures Known(FireWith(l, v)) && (FireWith(l, v).asked == l.asked || FireWith(l, v).asked == l.asked + [v])
  {
    var l1 := l.(asked := l.asked + [v]);
    if l.list.Some? && (!l.fired || l.stack.Some?) && !l.firing { HeadKnown(Begin(l1, v, true)); }
  }

  lemma {:induction false} ReturnKnown(l: CList<Cb, Val>)
    requires Wf(l) && Known(l) && l.firing
    ensures Known(Return(l, false)) && Return(l, false).asked == l.asked
  {
    HeadKnown(l.(firingIndex := l.firingIndex + 1));
  }

  /** The progress side of a Deferred. */
  ghost predicate Sound(d: Dfd) {
    DInv(d) && Agrees(d) && Known(d.progress.list)
  }

  /** Exactly v, if given, was accepted; exactly the callback now up, if it is one for progress, was called, with an accepted value. */
  ghost predicate Hears(d: Dfd, k: Kind, r: (Dfd, Option<Observer>), v: Option<Val>) {
    var up := k == Progress && r.1.Some?;
    && Sound(r.0)
    && r.0.progress.list.asked == d.progress.list.asked + (if v.Some? && d.state == Pending then [v.value] else [])
    && r.0.progress.calls == d.progress.calls + (if up then [Call(r.1.value, Argument(r.0, Progress), d.state)] else [])
    && (up ==> Argument(r.0, Progress) in r.0.progress.list.asked)
  }

  lemma {:induction false} FireHears(d: Dfd, k: Kind, v: Val)
    requires Sound(d)
    ensures Hears(d, k, FireD(d, k, v), if k == Progress then Some(v) else None)
  {
    FireEffect(d, k, v);
    if d.state != Pending {
      FireSettled(d, k, v);
    } else if k == Progress {
      NotifyHears(d, v);
    } else {
      SettleFollows(d, k, v);
      SettleEffect(d, k, v);
    }
  }

  lemma {:induction false} NotifyHears(d: Dfd, v: Val)
    requires Sound(d) && d.state == Pending
    ensures Hears(d, Progress, FireD(d, Progress, v), Some(v))
  {
    NotifyFollows(d, v);
    FireProgress(d, v);
    FireKnown(d.progress.list, v);
    FireAccepted(d.progress.list, v);
    CurrentIsKnown(FireD(d, Progress, v));
  }

  lemma {:induction false} FireAccepted(l: CList<Cb, Val>, v: Val)
    requires Wf(l) && Known(l) && l.list.Some? && l.stack.Some?
    ensures FireWith(l, v).asked == l.asked + [v]
  {
    if !l.firing { HeadKnown(Begin(l.(asked := l.asked + [v]), v, true)); }
  }

  lemma CurrentIsKnown(r: (Dfd, Option<Observer>))
    requires DInv(r.0) && Known(r.0.progress.list)
    ensures r.0.progress.list.firing ==> Argument(r.0, Progress) in r.0.progress.list.asked
  {
  }

  lemma {:induction false} AddHears(d: Dfd, k: Kind, o: Observer)
    requires Sound(d)
    ensures Hears(d, k, AddD(d, k, o), None)
  {
    AddEffect(d, k, o);
    if k == Progress {
      RegisterFollows(d, o);
      AddProgress(d, o);
      AddKnown(d.progress.list, [Client(o)]);
      CurrentIsKnown(AddD(d, k, o));
    } else {
      ElsewhereFollows(d, Register(k, o));
    }
  }

  lemma {:induction false} FinishedHears(d: Dfd, k: Kind)
    requires Sound(d) && Firing(d, k)
    ensures Hears(d, k, FinishedD(d, k), None)
  {
    FinishedEffect(d, k);
    if k == Progress {
      ReturnFollows(d);
      FinishedProgress(d);
      ReturnKnown(d.progress.list);
      CurrentIsKnown(FinishedD(d, k));
    } else {
      ElsewhereFollows(d, Finished(k));
    }
  }

  lemma NewSound()
    ensures Sound(NewDfd()) && NewDfd().progress.list.asked == [] && NewDfd().progress.calls == [] && NewDfd().progress.added == []
  {
    NewDfdInv();
    NewProgress();
  }
}
