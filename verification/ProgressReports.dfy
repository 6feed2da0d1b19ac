/** The notifications of the master of `when`: one report for every notification of a promise, each the last one with that position renewed. */
module ProgressReports {
  import opened Prelude
  import opened Observers
  import opened DeferredRuns
  import opened Promises
  import opened Countdown
  import opened WhenOutcome
  import opened ProgressFlow
  import opened ProgressSteps
  import opened ProgressOrder

  /** r is q with one position renewed. */
  ghost predicate Renews(q: Val, r: Val) {
    q.Values? && r.Values? && |r.vs| == |q.vs| && exists i :: 0 <= i < |q.vs| && r.vs == q.vs[i := r.vs[i]]
  }

  /** The last of the reports; before the first, n times nothing. */
  function Newest(reports: seq<Val>, n: nat): Val {
    if reports == [] then Values(seq(n, _ => Undefined)) else reports[|reports| - 1]
  }

  /** Each report renews one position of the one before. */
  ghost predicate OneByOne(reports: seq<Val>, n: nat) {
    forall j :: 0 <= j < |reports| ==> Renews(Newest(reports[..j], n), reports[j])
  }

  /** What call x was told about its argument i, in order. */
  function Progressed(w: World, x: nat, i: nat): seq<Val>
    requires x < |w.whens| && i < |w.whens[x].args|
  {
    var a := w.whens[x].args[i];
    if a.Promise? then ToldTo(w, a.id, CollectProgress(x, i)) else []
  }

  /** How often it was told about its first n arguments. */
  function ToldTimes(w: World, x: nat, n: nat): nat
    requires x < |w.whens| && n <= |w.whens[x].args|
  {
    if n == 0 then 0 else ToldTimes(w, x, n - 1) + |Progressed(w, x, n - 1)|
  }

  function Latest(values: seq<Val>): Val {
    if values == [] then Undefined else values[|values| - 1]
  }

  /** Position by position the last value told, or Undefined. */
  ghost predicate UpToDate(w: World, x: nat, vs: seq<Val>)
    requires x < |w.whens|
  {
    |vs| == |w.whens[x].args| && forall i :: 0 <= i < |vs| ==> vs[i] == Latest(Progressed(w, x, i))
  }

  function Reports(w: World, x: nat): seq<Val>
    requires x < |w.whens|
  {
    Heard(w, w.whens[x].master) + InHand(w, w.whens[x].master)
  }

  ghost predicate ReportsAt(w: World, x: nat) {
    x < |w.whens| ==>
      var c := w.whens[x];
      && UpToDate(w, x, c.notes)
      && OneByOne(Heard(w, c.master), |c.args|)
      && (StatusAt(w, c.master).Waiting? ==>
        && OneByOne(Reports(w, x), |c.args|)
        && Newest(Reports(w, x), |c.args|) == Values(c.notes)
        && |Reports(w, x)| == ToldTimes(w, x, |c.args|))
  }

  // ----- one step -----

  /** The beat reports on position i of call x. */
  predicate ReportsOn(b: Beat, x: nat, i: nat) {
    b.told.Some? && b.told.value.obs == CollectProgress(x, i)
  }

  /** It reports on one of the first n positions. */
  predicate ReportsBelow(b: Beat, x: nat, n: nat) {
    b.told.Some? && b.told.value.obs.CollectProgress? && b.told.value.obs.w == x && b.told.value.obs.i < n
  }

  lemma {:induction false} ProgressedStep(w: World, u: World, b: Beat, x: nat, i: nat)
    requires Beats(w, u, b) && x < |w.whens| && i < |w.whens[x].args|
    ensures x < |u.whens| && u.whens[x].args == w.whens[x].args
    ensures Progressed(u, x, i) == Progressed(w, x, i) + if ReportsOn(b, x, i) then [b.told.value.arg] else []
  {
    assert u.whens[x].args == w.whens[x].args;
    var a := w.whens[x].args[i];
    if a.Promise? {
      assert ToldBeat(w, u, b, a.id);
      ToldStep(w, u, b, a.id, CollectProgress(x, i));
    }
    hide ToldTo;
    assert Progressed(w, x, i) + [] == Progressed(w, x, i);
  }

  lemma {:induction false} TimesStep(w: World, u: World, b: Beat, x: nat, n: nat)
    requires x < |w.whens| && x < |u.whens| && u.whens[x].args == w.whens[x].args && n <= |w.whens[x].args|
    requires forall i: nat :: i < n ==> |Progressed(u, x, i)| == |Progressed(w, x, i)| + if ReportsOn(b, x, i) then 1 else 0
    ensures ToldTimes(u, x, n) == ToldTimes(w, x, n) + if ReportsBelow(b, x, n) then 1 else 0
  {
    hide Progressed;
    if n > 0 { TimesStep(w, u, b, x, n - 1); }
  }

  lemma UpToDateStep(w: World, u: World, b: Beat, x: nat)
    requires Beats(w, u, b) && x < |w.whens| && UpToDate(w, x, w.whens[x].notes)
    ensures x < |u.whens| && UpToDate(u, x, u.whens[x].notes)
    ensures u.whens[x].notes == if ReportsBelow(b, x, |w.whens[x].args|) then w.whens[x].notes[b.told.value.obs.i := b.told.value.arg] else w.whens[x].notes
  {
    assert u.whens[x].args == w.whens[x].args && NotesBeat(w, u, b, x);
    forall i | 0 <= i < |w.whens[x].args| ensures u.whens[x].notes[i] == Latest(Progressed(u, x, i)) {
      hide Beats, Progressed;
      ProgressedStep(w, u, b, x, i);
    }
  }

  /** The report in hand, if the beat makes one, has the notes of the call. */
  lemma ReportInHand(w: World, u: World, b: Beat, x: nat)
    requires Beats(w, u, b) && NInv(w) && NInv(u) && x < |w.whens|
    ensures x < |u.whens| && InHand(u, u.whens[x].master) == if ReportsBelow(b, x, |w.whens[x].args|) then [Values(u.whens[x].notes)] else []
  {
    var m := u.whens[x].master;
    assert NRecord(u, x) && NRecord(w, x);
    assert u.whens[x].args == w.whens[x].args;
    if b.told.Some? {
      assert PObs(w, b.told.value.d, b.told.value.obs);
      if b.told.value.obs.CollectProgress? { assert NRecord(u, b.told.value.obs.w); }
    }
  }

  lemma OneMore(reports: seq<Val>, n: nat, r: Val)
    requires OneByOne(reports, n) && Renews(Newest(reports, n), r)
    ensures OneByOne(reports + [r], n) && Newest(reports + [r], n) == r
  {
    var more := reports + [r];
    forall j | 0 <= j < |more| ensures Renews(Newest(more[..j], n), more[j]) {
      assert more[..j] == reports[..j] && (j == |reports| ==> reports[..j] == reports);
      hide Newest, Renews;
      if j < |reports| { assert Renews(Newest(reports[..j], n), reports[j]); }
    }
  }

  lemma {:induction false} ReportsStep(w: World, u: World, b: Beat, x: nat)
    requires Beats(w, u, b) && Led(w, b) && NInv(w) && NInv(u) && ReportsAt(w, x) && x < |w.whens|
    ensures ReportsAt(u, x)
  {
    var m, n := w.whens[x].master, |w.whens[x].args|;
    assert NRecord(w, x);
    SameCall(w, u, b, x);
    HeardStep(w, u, b, m);
    forall i: nat | i < n ensures |Progressed(u, x, i)| == |Progressed(w, x, i)| + if ReportsOn(b, x, i) then 1 else 0 { ProgressedStep(w, u, b, x, i); }
    UpToDateStep(w, u, b, x);
    TimesStep(w, u, b, x, n);
    ReportInHand(w, u, b, x);
    hide Beats, NInv, Led, Heard, InHand, StatusAt, UpToDate, ToldTimes, Progressed, OneByOne;
    NextReports(w, u, b, x);
  }

  lemma SameCall(w: World, u: World, b: Beat, x: nat)
    requires Beats(w, u, b) && x < |w.whens|
    ensures x < |u.whens| && u.whens[x].args == w.whens[x].args && u.whens[x].master == w.whens[x].master
    ensures w.whens[x].master < |w.cells| && StatusAt(u, u.whens[x].master).Waiting? ==> StatusAt(w, w.whens[x].master).Waiting?
  {
  }

  /** The reports so far, and perhaps one more. */
  lemma {:induction false} NextReports(w: World, u: World, b: Beat, x: nat)
    requires x < |w.whens| && x < |u.whens| && u.whens[x].args == w.whens[x].args && u.whens[x].master == w.whens[x].master
    requires var m, n := w.whens[x].master, |w.whens[x].args|;
      && |w.whens[x].notes| == n
      && u.whens[x].notes == (if ReportsBelow(b, x, n) then w.whens[x].notes[b.told.value.obs.i := b.told.value.arg] else w.whens[x].notes)
      && Heard(u, m) == Heard(w, m) + (if StatusAt(w, m).Waiting? then InHand(w, m) else [])
      && InHand(u, m) == if ReportsBelow(b, x, n) then [Values(u.whens[x].notes)] else []
    requires var m, n := w.whens[x].master, |w.whens[x].args|;
      && OneByOne(Heard(w, m), n)
      && (StatusAt(w, m).Waiting? ==> OneByOne(Reports(w, x), n) && Newest(Reports(w, x), n) == Values(w.whens[x].notes))
    ensures var m, n := w.whens[x].master, |w.whens[x].args|;
      && OneByOne(Heard(u, m), n)
      && (StatusAt(w, m).Waiting? ==>
        && OneByOne(Reports(u, x), n) && Newest(Reports(u, x), n) == Values(u.whens[x].notes)
        && |Reports(u, x)| == |Reports(w, x)| + if ReportsBelow(b, x, n) then 1 else 0)
  {
    var m, n := w.whens[x].master, |w.whens[x].args|;
    hide Heard, InHand, StatusAt, OneByOne, Newest, Renews;
    assert Heard(w, m) + [] == Heard(w, m) && Heard(u, m) + [] == Heard(u, m);
    if StatusAt(w, m).Waiting? && ReportsBelow(b, x, n) {
      Renewed(w.whens[x].notes, b.told.value.obs.i, b.told.value.arg);
      OneMore(Heard(u, m), n, Values(u.whens[x].notes));
    }
  }

  lemma Renewed(notes: seq<Val>, i: nat, v: Val)
    requires i < |notes|
    ensures Renews(Values(notes), Values(notes[i := v]))
  {
    assert notes[i := v] == notes[i := notes[i := v][i]];
  }

  // ----- a new call -----

  lemma {:induction false} NothingTold(w: World, u: World, b: Beat, x: nat, i: nat)
    requires Beats(w, u, b) && Familiar(w) && |w.whens| <= x < |u.whens| && i < |u.whens[x].args|
    ensures Progressed(u, x, i) == [] && !ReportsOn(b, x, i)
  {
    if b.told.Some? { assert PObs(w, b.told.value.d, b.told.value.obs); }
    var a := u.whens[x].args[i];
    if a.Promise? {
      Unfamiliar(Told(w, a.id), CollectProgress(x, i)) by { hide Told; }
      assert ToldBeat(w, u, b, a.id);
      ToldStep(w, u, b, a.id, CollectProgress(x, i));
    }
  }

  lemma {:induction false} NoTimes(u: World, x: nat, n: nat)
    requires x < |u.whens| && n <= |u.whens[x].args| && forall i: nat :: i < n ==> Progressed(u, x, i) == []
    ensures ToldTimes(u, x, n) == 0
  {
    if n > 0 { NoTimes(u, x, n - 1); }
  }

  lemma {:induction false} ReportsFresh(w: World, u: World, b: Beat, x: nat)
    requires Beats(w, u, b) && Familiar(w) && WhenInv(w) && NInv(w) && NInv(u) && |w.whens| <= x < |u.whens|
    ensures ReportsAt(u, x)
  {
    var m, n := u.whens[x].master, |u.whens[x].args|;
    assert NRecord(u, x);
    forall i: nat | i < n ensures Progressed(u, x, i) == [] { NothingTold(w, u, b, x, i); }
    NoTimes(u, x, n);
    FreshMaster(w, u, b, x);
    NoReport(w, u, b, x);
    assert forall i :: 0 <= i < n ==> u.whens[x].notes[i] in u.whens[x].notes;
    assert u.whens[x].notes == seq(n, _ => Undefined);
  }

  lemma FreshMaster(w: World, u: World, b: Beat, x: nat)
    requires Beats(w, u, b) && WhenInv(w) && NInv(u) && |w.whens| <= x < |u.whens|
    ensures Heard(u, u.whens[x].master) == []
  {
    var m := u.whens[x].master;
    assert NRecord(u, x);
    OldMasters(w);
    assert HeardBeat(w, u, b, m);
  }

  lemma NoReport(w: World, u: World, b: Beat, x: nat)
    requires Beats(w, u, b) && NInv(u) && |w.whens| <= x < |u.whens|
    ensures InHand(u, u.whens[x].master) == []
  {
    assert NRecord(u, x);
    if b.told.Some? {
      assert NObs(w, b.told.value.d, Progress, b.told.value.obs);
      NObsGrows(w, u, b.told.value.d, Progress, b.told.value.obs);
      if b.told.value.obs.CollectProgress? { assert NRecord(u, b.told.value.obs.w); }
    }
  }

  // ----- whole runs -----

  ghost predicate AllReports(w: World) {
    forall x: nat :: ReportsAt(w, x)
  }

  lemma {:induction false} RunReports(w: World, choices: seq<Choice>)
    requires AllGood(w) && NInv(w) && Exact(w) && AllReports(w)
    ensures AllReports(Run(w, choices))
    decreases |choices|
  {
    if choices != [] {
      OneExact(w, choices[0]);
      OneReport(w, choices[0]);
      hide AllGood, NInv, Exact, Step, AllReports;
      RunReports(Step(w, choices[0]), choices[1..]);
    }
  }

  lemma {:induction false} OneReport(w: World, c: Choice)
    requires AllGood(w) && NInv(w) && Exact(w) && AllReports(w)
    ensures AllReports(Step(w, c))
  {
    StepNInv(w, c);
    var b := StepBeats(w, c);
    var u := Step(w, c);
    assert WhenInv(w) && Familiar(w);
    hide AllGood, WhenInv, NInv, Exact, Familiar, Step, Beats, Led, ReportsAt;
    forall x: nat ensures ReportsAt(u, x) {
      if x < |w.whens| { ReportsStep(w, u, b, x); }
      else if x < |u.whens| { ReportsFresh(w, u, b, x); }
      else { NoSuchCall(u, x); }
    }
  }

  lemma NoSuchCall(u: World, x: nat)
    requires x >= |u.whens|
    ensures ReportsAt(u, x)
  {
  }

  /**
   In every run, for every call of `when`: each notification of its master differs from
   the one before in the position of one promise; and while the master is pending and
   no report is in hand, there is one report for each time the call was told of a
   notification, and the newest lists what each promise last notified.
   */
  lemma NotificationsOfMaster(choices: seq<Choice>, x: nat)
    requires x < |Run(START, choices).whens|
    ensures var w := Run(START, choices);
      var c := w.whens[x];
      && OneByOne(Heard(w, c.master), |c.args|)
      && (StatusAt(w, c.master).Waiting? && Hand(w).None? ==>
        && |Heard(w, c.master)| == ToldTimes(w, x, |c.args|)
        && Newest(Heard(w, c.master), |c.args|).Values?
        && UpToDate(w, x, Newest(Heard(w, c.master), |c.args|).vs))
  {
    StartAllGood();
    StartExact();
    RunReports(START, choices);
    var w := Run(START, choices);
    assert ReportsAt(w, x);
    assert Heard(w, w.whens[x].master) + [] == Heard(w, w.whens[x].master);
  }
}
