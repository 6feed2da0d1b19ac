/** The notifications of a derived promise are exactly what is passed on to it, in that order. */
module ProgressOrder {
  import opened Prelude
  import opened Observers
  import opened DeferredRuns
  import opened DeferredProgress
  import opened Promises
  import opened Then
  import opened WhenOutcome
  import opened WhenOrder
  import opened ThenLimits
  import opened ProgressFlow
  import opened ProgressSteps

  /** What the progress callback o of d was called with, in order. */
  function ToldTo(w: World, d: nat, o: Observer): seq<Val> {
    ArgsOf(Told(w, d), o)
  }

  /** The plain answers of the progress handler of t, in order. */
  function Answers(calls: seq<HandlerCall>, t: nat): seq<Val> {
    if calls == [] then []
    else
      var c := calls[|calls| - 1];
      Answers(calls[..|calls| - 1], t) + if c.h.target == t && c.h.kind == Progress && c.ret.Plain? then [c.ret.v] else []
  }

  /** No handler of t has answered with a promise. */
  ghost predicate Plainly(w: World, t: nat) {
    forall p: nat :: !Gave(w, t, p)
  }

  /** What t is to hear: what its source tells the forwarding callback, or what its progress handler answers. */
  ghost function Meant(w: World, t: nat): seq<Val>
    requires IsThen(w, t)
  {
    if FnAt(w, t, Progress).None? then ToldTo(w, Src(w, t), Forward(t, Progress)) else Answers(w.calls, t)
  }

  function InHand(w: World, t: nat): seq<Val> {
    if Hand(w).Some? && Hand(w).value.to == t then [Hand(w).value.value] else []
  }

  ghost predicate ExactAt(w: World, t: nat) {
    IsThen(w, t) && Plainly(w, t) ==>
      && Heard(w, t) <= Meant(w, t)
      && (StatusAt(w, t).Waiting? ==> Heard(w, t) + InHand(w, t) == Meant(w, t))
  }

  /** Whatever forwards to somebody or reports to a call of `when`, does so to one that exists. */
  ghost predicate Familiar(w: World) {
    forall d: nat, i: nat {:trigger Told(w, d)[i]} :: i < |Told(w, d)| ==>
      && (Told(w, d)[i].0.Forward? ==> Told(w, d)[i].0.target < |w.cells|)
      && (Told(w, d)[i].0.CollectProgress? ==> Told(w, d)[i].0.w < |w.whens|)
  }

  lemma {:induction false} FamiliarBeat(w: World, u: World, b: Beat)
    requires Familiar(w) && Beats(w, u, b)
    ensures Familiar(u)
  {
    assert |w.cells| <= |u.cells| && |w.whens| <= |u.whens|;
    hide Told, Heard, Extends, Hand;
    forall d: nat, i: nat | i < |Told(u, d)|
      ensures Told(u, d)[i].0.Forward? ==> Told(u, d)[i].0.target < |u.cells|
      ensures Told(u, d)[i].0.CollectProgress? ==> Told(u, d)[i].0.w < |u.whens|
    {
      assert ToldBeat(w, u, b, d);
      if i < |Told(w, d)| { assert Told(u, d)[i] == Told(w, d)[i]; }
    }
  }

  /** Nobody who is not there was ever told. */
  lemma {:induction false} Unfamiliar(told: seq<(Observer, Val)>, o: Observer)
    requires forall i :: 0 <= i < |told| ==> told[i].0 != o
    ensures ArgsOf(told, o) == []
  {
    if told != [] { Unfamiliar(told[..|told| - 1], o); }
  }

  lemma {:induction false} NoAnswers(calls: seq<HandlerCall>, t: nat)
    requires forall c :: c in calls && c.h.kind == Progress ==> c.h.target != t
    ensures Answers(calls, t) == []
  {
    if calls != [] {
      assert calls[|calls| - 1] in calls;
      NoAnswers(calls[..|calls| - 1], t);
    }
  }

  lemma {:induction false} AnswersStep(calls: seq<HandlerCall>, c: HandlerCall, t: nat)
    ensures Answers(calls + [c], t) == Answers(calls, t) + if c.h.target == t && c.h.kind == Progress && c.ret.Plain? then [c.ret.v] else []
  {
    assert (calls + [c])[..|calls|] == calls;
  }

  /** One more call of a progress callback. */
  lemma {:induction false} ToldStep(w: World, u: World, b: Beat, d: nat, o: Observer)
    requires ToldBeat(w, u, b, d)
    ensures ToldTo(u, d, o) == ToldTo(w, d, o) +
      if b.told.Some? && b.told.value.d == d && b.told.value.obs == o then [b.told.value.arg] else []
  {
    hide Told;
    if b.told.Some? && b.told.value.d == d {
      ArgsStep(Told(w, d), (b.told.value.obs, b.told.value.arg), o);
    } else {
      assert Told(w, d) + [] == Told(w, d);
    }
    assert ToldTo(w, d, o) + [] == ToldTo(w, d, o);
  }

  /** Who gets what is passed on. */
  lemma HandOf(w: World, u: World, b: Beat, t: nat)
    requires Beats(w, u, b) && NInv(u) && IsThen(u, t) && Plainly(u, t)
    ensures InHand(u, t) ==
      if b.told.Some? then
        (if b.told.value.obs == Forward(t, Progress) then [b.told.value.arg] else [])
      else if b.answered.Some? && b.answered.value.h.target == t && b.answered.value.h.kind == Progress && b.answered.value.ret.Plain? then
        [b.answered.value.ret.v]
      else []
    ensures b.told.Some? && b.told.value.obs == Forward(t, Progress) ==> b.told.value.d == Src(u, t) && FnAt(u, t, Progress).None?
    ensures b.told.Some? ==> b.answered.None?
    ensures b.answered.Some? && b.answered.value.h.target == t && b.answered.value.h.kind == Progress ==> FnAt(u, t, Progress).Some?
  {
    if b.told.Some? {
      assert NObs(w, b.told.value.d, Progress, b.told.value.obs);
      NObsGrows(w, u, b.told.value.d, Progress, b.told.value.obs);
      if b.told.value.obs.CollectProgress? { assert NRecord(u, b.told.value.obs.w); }
    }
  }

  /** What t is to hear grows by what is then in hand for it. */
  lemma {:induction false} MeantStep(w: World, u: World, b: Beat, t: nat)
    requires Beats(w, u, b) && NInv(u) && IsThen(w, t) && Plainly(u, t)
    ensures IsThen(u, t) && Meant(u, t) == Meant(w, t) + InHand(u, t)
  {
    assert IsThen(u, t) && Src(u, t) == Src(w, t) && FnAt(u, t, Progress) == FnAt(w, t, Progress);
    var s := Src(w, t);
    HandOf(w, u, b, t);
    assert Meant(w, t) + [] == Meant(w, t);
    if FnAt(w, t, Progress).None? {
      assert ToldBeat(w, u, b, s);
      ToldStep(w, u, b, s, Forward(t, Progress));
    } else if b.answered.Some? {
      AnswersStep(w.calls, b.answered.value, t);
    } else {
      assert w.calls + [] == w.calls;
    }
  }

  /** What t accepts is what was in hand for it. */
  lemma {:induction false} HeardStep(w: World, u: World, b: Beat, t: nat)
    requires Beats(w, u, b) && Led(w, b) && t < |w.cells| && w.cells[t].origin != Public
    ensures Heard(u, t) == Heard(w, t) + if StatusAt(w, t).Waiting? then InHand(w, t) else []
  {
    assert HeardBeat(w, u, b, t);
  }

  lemma {:induction false} ExactStep(w: World, u: World, b: Beat, t: nat)
    requires Beats(w, u, b) && Led(w, b) && NInv(u) && ExactAt(w, t) && IsThen(w, t)
    ensures ExactAt(u, t)
  {
    if Plainly(u, t) {
      assert Plainly(w, t) by {
        forall p: nat ensures !Gave(w, t, p) { if Gave(w, t, p) { GaveGrows(w, u, t, p); } }
      }
      MeantStep(w, u, b, t);
      HeardStep(w, u, b, t);
      assert StatusAt(u, t).Waiting? ==> StatusAt(w, t).Waiting?;
      hide Beats, NInv, Meant, Heard, Gave, InHand, StatusAt, Plainly;
    }
  }

  /** A promise that was just derived: nothing has happened to it. */
  lemma {:induction false} ExactFresh(w: World, u: World, b: Beat, t: nat)
    requires Beats(w, u, b) && NInv(w) && NInv(u) && Familiar(w) && t >= |w.cells| && IsThen(u, t)
    ensures ExactAt(u, t)
  {
    if Plainly(u, t) {
      HandOf(w, u, b, t);
      assert Heard(u, t) == [] by { assert HeardBeat(w, u, b, t); }
      if FnAt(u, t, Progress).None? {
        var s := Src(u, t);
        Unfamiliar(Told(w, s), Forward(t, Progress)) by { hide Told; }
        assert ToldBeat(w, u, b, s);
        ToldStep(w, u, b, s, Forward(t, Progress));
      } else {
        OldAnswers(w, t);
        if b.answered.Some? { AnswersStep(w.calls, b.answered.value, t); }
        assert w.calls + [] == w.calls;
      }
    }
  }

  lemma OldAnswers(w: World, t: nat)
    requires NInv(w) && t >= |w.cells|
    ensures Answers(w.calls, t) == []
  {
    forall c | c in w.calls && c.h.kind == Progress ensures c.h.target != t { assert NHandling(w, c.h); }
    NoAnswers(w.calls, t);
  }

  ghost predicate Exact(w: World) {
    Solo(w) && Familiar(w) && forall t: nat :: ExactAt(w, t)
  }

  lemma {:induction false} RunExact(w: World, choices: seq<Choice>)
    requires AllGood(w) && NInv(w) && Exact(w)
    ensures AllGood(Run(w, choices)) && NInv(Run(w, choices)) && Exact(Run(w, choices))
    decreases |choices|
  {
    if choices != [] {
      OneExact(w, choices[0]);
      hide AllGood, NInv, Exact, Step;
      RunExact(Step(w, choices[0]), choices[1..]);
    }
  }

  lemma {:induction false} OneExact(w: World, c: Choice)
    requires AllGood(w) && NInv(w) && Exact(w)
    ensures AllGood(Step(w, c)) && NInv(Step(w, c)) && Exact(Step(w, c))
  {
    StepNInv(w, c);
    StepAllGood(w, c);
    var b := StepBeats(w, c);
    var u := Step(w, c);
    FamiliarBeat(w, u, b);
    hide AllGood, NInv, Solo, Familiar, Step, Beats, Led;
    forall t: nat ensures ExactAt(u, t) {
      if IsThen(w, t) { ExactStep(w, u, b, t); }
      else if IsThen(u, t) { OriginKept(w, u, b, t); ExactFresh(w, u, b, t); }
    }
  }

  lemma OriginKept(w: World, u: World, b: Beat, t: nat)
    requires Beats(w, u, b) && IsThen(u, t) && !IsThen(w, t)
    ensures t >= |w.cells|
  {
  }

  lemma StartExact()
    ensures NInv(START) && Exact(START)
  {
  }

  /**
   In every run, for every derived promise whose handlers answered no promise: it is
   notified with exactly what its source told the callback that stands for it, or, if
   it has a progress handler, with exactly what that handler answered, in that order.
   Once it has settled it hears no more.
   */
  lemma NotificationsAreExact(choices: seq<Choice>, t: nat)
    requires IsThen(Run(START, choices), t) && Plainly(Run(START, choices), t)
    ensures var w := Run(START, choices);
      && Heard(w, t) <= Meant(w, t)
      && (StatusAt(w, t).Waiting? && Hand(w).None? ==> Heard(w, t) == Meant(w, t))
  {
    StartAllGood();
    StartExact();
    RunExact(START, choices);
    var w := Run(START, choices);
    assert ExactAt(w, t);
    assert Heard(w, t) + [] == Heard(w, t);
  }

  /** What is in hand for a pending Deferred is accepted at once, whatever client code would do next. */
  lemma {:induction false} HandIsAccepted(w: World, c: Choice)
    requires AllGood(w) && NInv(w) && Solo(w) && Hand(w).Some? && StatusAt(w, Hand(w).value.to).Waiting?
    ensures var n := Hand(w).value; Heard(Step(w, c), n.to) == Heard(w, n.to) + [n.value]
  {
    assert NFrame(w, w.stack[0]) && NAct(w, w.stack[0].acts[0]);
    var b := StepBeats(w, c);
    hide NInv, AllGood, StatusAt, Heard, Step, NFrame;
    assert HeardBeat(w, Step(w, c), b, Hand(w).value.to);
  }

  lemma {:induction false} AnswerIsHeard(w: World, h: Handling, v: Val, c: Choice)
    requires AllGood(w) && NInv(w) && Exact(w)
    requires |w.stack| > 1 && w.stack[0] == UserCode(Some(h)) && h.kind == Progress && StatusAt(w, h.target).Waiting?
    ensures CellsOk(Step(w, Return(Plain(v)))) && Heard(Step(Step(w, Return(Plain(v))), c), h.target) == Heard(w, h.target) + [v]
  {
    var u := Step(w, Return(Plain(v)));
    OneExact(w, Return(Plain(v)));
    assert Heard(u, h.target) == Heard(w, h.target) && Hand(u) == Some(Note(h.target, v)) && StatusAt(u, h.target).Waiting?;
    HandIsAccepted(u, c);
  }

  /** A progress handler that answers v while its promise t is pending notifies t with v. */
  lemma {:induction false} PlainAnswerIsAccepted(choices: seq<Choice>, h: Handling, v: Val, c: Choice)
    requires var w := Run(START, choices);
      |w.stack| > 1 && w.stack[0] == UserCode(Some(h)) && h.kind == Progress && StatusAt(w, h.target).Waiting?
    ensures Heard(Run(START, choices + [Return(Plain(v)), c]), h.target) == Heard(Run(START, choices), h.target) + [v]
  {
    StartAllGood();
    StartExact();
    RunExact(START, choices);
    var w := Run(START, choices);
    var r := Return(Plain(v));
    hide AllGood, NInv, Exact, Step, Run;
    AnswerIsHeard(w, h, v, c);
    RunSnoc(START, choices, r);
    RunSnoc(START, choices + [r], c);
    assert choices + [r, c] == choices + [r] + [c];
  }
}
