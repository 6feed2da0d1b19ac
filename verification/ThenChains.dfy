/** Chains of `then` compute a pure fold over their stages. */
module ThenChains {
  import opened Observers
  import opened Deferred
  import opened DeferredRuns
  import opened DeferredEffects
  import opened Promises
  import opened PromiseShape
  import opened Then
  import opened ThenLive

  /** What the handlers answer, stage by stage: a plain value or a promise, perhaps a different one at every stage. */
  type Answers = (nat, Kind, Val) -> Arg

  /** Stage i: what `then` with these handlers makes of the outcome of its source. */
  function StageOutcome(h: Answers, i: nat, at: nat -> Status, fns: Fns, source: Status): Status {
    match source
    case Waiting => Waiting
    case Settled(k, v) =>
      if FnFor(fns, k).None? then Settled(k, v)
      else
        match h(i, k, v)
        case Plain(r) => Settled(k, r)
        case Promise(p) => at(p)
  }

  /** A chain whose first stage is number i: the fold of its stages over the outcome of the first promise. */
  function ChainOutcome(h: Answers, i: nat, at: nat -> Status, stages: seq<Fns>, source: Status): Status
    decreases |stages|
  {
    if stages == [] then source
    else ChainOutcome(h, i + 1, at, stages[1..], StageOutcome(h, i, at, stages[0], source))
  }

  /** The done and fail handlers of t answered as h says for stage i. */
  ghost predicate AnswersAs(w: World, t: nat, h: Answers, i: nat) {
    forall c :: c in w.calls && c.h.target == t && c.h.kind != Progress ==> c.ret == h(i, c.h.kind, c.h.arg)
  }

  ghost predicate Good(w: World) {
    Shape(w) && CellsOk(w) && ThenInv(w) && LinksInside(w) && AllLive(w)
  }

  lemma StartGood()
    ensures Good(START)
  {
  }

  lemma {:induction false} RunGood(w: World, choices: seq<Choice>)
    requires Good(w)
    ensures Good(Run(w, choices)) && Grows(w, Run(w, choices))
    decreases |choices|
  {
    hide Shape, ThenInv, LinksInside, AllLive, StatusAt, Step;
    if choices != [] {
      StepCellsOk(w, choices[0]);
      StepShape(w, choices[0]);
      StepThen(w, choices[0]);
      StepLinks(w, choices[0]);
      StepLive(w, choices[0]);
      RunGood(Step(w, choices[0]), choices[1..]);
      GrowsTransitive(w, Step(w, choices[0]), Run(w, choices));
    }
  }

  /** At rest, an attachment means that nothing has happened on p yet, or that it settled on the other side. */
  lemma AttachedAtRest(w: World, p: nat, t: nat, k: Kind)
    requires Shape(w) && Quiescent(w) && Attached(w, p, t, k) && k != Progress
    ensures StatusAt(w, p).Settled? ==> StatusAt(w, p).kind != k
  {
    if StatusAt(w, p).Settled? && StatusAt(w, p).kind == k {
      QuiescentIdle(w, p, k);
      var d := w.cells[p].d;
      assert d.state != Pending && k == Settler(d);
      NothingDue(d, k);
    }
  }

  lemma LinkedAtRest(w: World, p: nat, t: nat)
    requires Shape(w) && Quiescent(w) && Linked(w, p, t)
    ensures StatusAt(w, p).Waiting?
  {
    AttachedAtRest(w, p, t, Done);
    AttachedAtRest(w, p, t, Fail);
    if StatusAt(w, p).Settled? { SettledSide(w, p); }
  }

  lemma SettledSide(w: World, p: nat)
    requires StatusAt(w, p).Settled?
    ensures StatusAt(w, p).kind != Progress
  {
  }

  ghost function Statuses(w: World): nat -> Status {
    (i: nat) => StatusAt(w, i)
  }

  /** At rest the status of a derived promise is exactly its stage applied to the status of its source. */
  lemma StageAtRest(w: World, t: nat, h: Answers, i: nat)
    requires Good(w) && Quiescent(w) && IsThen(w, t) && AnswersAs(w, t, h, i) && !ProgressAdopted(w, t)
    ensures StatusAt(w, t) == StageOutcome(h, i, Statuses(w), w.cells[t].origin.fns, StatusAt(w, Src(w, t)))
  {
    assert CellOk(w, t) && Live(w, t);
    hide Shape, CellsOk, StatusOf, Attached, Due;
    if StatusAt(w, t).Settled? {
      var k, v := StatusAt(w, t).kind, StatusAt(w, t).value;
      assert Follows(w, t, k, v);
    } else {
      assert !InFlight(w, t);
      if Linked(w, Src(w, t), t) {
        LinkedAtRest(w, Src(w, t), t);
      } else {
        var p :| Adopts(w, t, p) && Linked(w, p, t);
        LinkedAtRest(w, p, t);
      }
    }
  }

  /** t was made by calling `then` with these handlers on p, and none of its progress handlers returned a promise. */
  ghost predicate IsLink(w: World, p: nat, t: nat, fns: Fns) {
    IsThen(w, t) && !ProgressAdopted(w, t) && w.cells[t].origin == ThenOf(p, fns)
  }

  /** Stage i of a chain, its handlers answering as h says for stage n + i. */
  ghost predicate IsStage(w: World, chain: seq<nat>, stages: seq<Fns>, h: Answers, n: nat, i: nat)
    requires i < |stages| && |chain| == |stages| + 1
  {
    IsLink(w, chain[i], chain[i + 1], stages[i]) && AnswersAs(w, chain[i + 1], h, n + i)
  }

  ghost predicate IsChain(w: World, chain: seq<nat>, stages: seq<Fns>, h: Answers, n: nat) {
    |chain| == |stages| + 1 && forall i: nat :: i < |stages| ==> IsStage(w, chain, stages, h, n, i)
  }

  lemma {:induction false} ChainAtRest(w: World, chain: seq<nat>, stages: seq<Fns>, h: Answers, n: nat)
    requires Good(w) && Quiescent(w) && IsChain(w, chain, stages, h, n)
    ensures StatusAt(w, chain[|stages|]) == ChainOutcome(h, n, Statuses(w), stages, StatusAt(w, chain[0]))
    decreases |stages|
  {
    hide Good, StatusAt, AnswersAs;
    if stages != [] {
      assert IsStage(w, chain, stages, h, n, 0);
      StageAtRest(w, chain[1], h, n);
      var links, rest, n1 := chain[1..], stages[1..], n + 1;
      forall i: nat | i < |rest| ensures IsStage(w, links, rest, h, n1, i) {
        assert IsStage(w, chain, stages, h, n, i + 1);
        assert n1 + i == n + (i + 1);
      }
      ChainAtRest(w, links, rest, h, n1);
    }
  }

  /**
   The outcome of a chain of n stages, in any run of any client that has come to
   rest: the fold of the stages over the outcome of the source, whatever was
   settled before, between or after the calls of `then`. Every stage has answers
   of its own, so that one function may return a fresh promise at each. A stage
   whose progress handler returned a promise is excluded; see
   ProgressHandlerBreaksTheFold.
   */
  lemma ChainIsFold(choices: seq<Choice>, chain: seq<nat>, stages: seq<Fns>, h: Answers)
    requires var w := Run(START, choices); Quiescent(w) && IsChain(w, chain, stages, h, 0)
    ensures var w := Run(START, choices);
      StatusAt(w, chain[|stages|]) == ChainOutcome(h, 0, Statuses(w), stages, StatusAt(w, chain[0]))
  {
    StartGood();
    RunGood(START, choices);
    ChainAtRest(Run(START, choices), chain, stages, h, 0);
  }

  /** Equal plain answers, or two promises, whatever their identities, with the same outcome. */
  predicate SameAnswer(at1: nat -> Status, a1: Arg, at2: nat -> Status, a2: Arg) {
    if a1.Plain? then a2 == a1 else a2.Promise? && at1(a1.id) == at2(a2.id)
  }

  /**
   Hence timing does not matter: take two runs of two clients, at rest, with a chain
   of the same handlers in each. If the sources have the same outcome and the
   handlers of each stage answer the same values or promises with the same outcome,
   perhaps made afresh in each run, then the chains have the same outcome.
   */
  lemma TimingIsIrrelevant(choices1: seq<Choice>, choices2: seq<Choice>, chain1: seq<nat>, chain2: seq<nat>,
                           stages: seq<Fns>, h1: Answers, h2: Answers)
    requires var w1, w2 := Run(START, choices1), Run(START, choices2);
      && Quiescent(w1) && IsChain(w1, chain1, stages, h1, 0)
      && Quiescent(w2) && IsChain(w2, chain2, stages, h2, 0)
      && StatusAt(w1, chain1[0]) == StatusAt(w2, chain2[0])
      && (forall i: nat, k, v :: i < |stages| ==> SameAnswer(Statuses(w1), h1(i, k, v), Statuses(w2), h2(i, k, v)))
    ensures StatusAt(Run(START, choices1), chain1[|stages|]) == StatusAt(Run(START, choices2), chain2[|stages|])
  {
    ChainIsFold(choices1, chain1, stages, h1);
    ChainIsFold(choices2, chain2, stages, h2);
    var w1, w2 := Run(START, choices1), Run(START, choices2);
    SameFold(h1, Statuses(w1), h2, Statuses(w2), 0, stages, StatusAt(w1, chain1[0]));
  }

  lemma {:induction false} SameFold(h1: Answers, at1: nat -> Status, h2: Answers, at2: nat -> Status, n: nat, stages: seq<Fns>, source: Status)
    requires forall i: nat, k, v :: i < n + |stages| ==> SameAnswer(at1, h1(i, k, v), at2, h2(i, k, v))
    ensures ChainOutcome(h1, n, at1, stages, source) == ChainOutcome(h2, n, at2, stages, source)
    decreases |stages|
  {
    if stages != [] {
      if source.Settled? { assert SameAnswer(at1, h1(n, source.kind, source.value), at2, h2(n, source.kind, source.value)); }
      SameFold(h1, at1, h2, at2, n + 1, stages[1..], StageOutcome(h1, n, at1, stages[0], source));
    }
  }
}
