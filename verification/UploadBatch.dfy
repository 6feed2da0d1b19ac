/** Asynchronous upload of a file stack: one request per entry, and a finaliser when all have been answered. */
module UploadBatch {
  import opened Prelude

  /** An entry of filestack; an image that failed its size check leaves null, and a removed or answered file undefined. */
  datatype Cell = File | Undef | Null

  datatype Batch = Batch(stack: seq<Cell>, log: seq<nat>, count: nat, completed: bool, scheduled: nat)

  /** The timers: the answer to request i (success or error alike), its completion, and the finaliser. */
  datatype Tick = Outcome(i: nat) | Complete(i: nat) | Finalise

  // ----- specification -----

  function Begin(stack: seq<Cell>): Batch {
    Batch(stack, [], Count(stack, File), false, 0)
  }

  /** checkAsyncComplete */
  predicate AllDone(stack: seq<Cell>, log: seq<nat>, count: nat) {
    (forall i :: 0 <= i < |stack| && stack[i] == File ==> i in log) && count == |log|
  }

  function Step(b: Batch, t: Tick): Batch
    requires t.Outcome? ==> t.i < |b.stack|
  {
    match t
    case Outcome(i) =>
      var stack, log := b.stack[i := Undef], b.log + [i];
      b.(stack := stack, log := log, completed := b.completed || AllDone(stack, log, b.count))
    case Complete(_) => if b.completed then b.(scheduled := b.scheduled + 1) else b
    case Finalise => b.(log := [])
  }

  function Outs(ticks: seq<Tick>): seq<nat> {
    if ticks == [] then []
    else Outs(ticks[..|ticks| - 1]) + if ticks[|ticks| - 1].Outcome? then [ticks[|ticks| - 1].i] else []
  }

  /** Requests are answered once each, and the finaliser runs only when it has been scheduled. */
  ghost predicate WellTimed(start: seq<Cell>, ticks: seq<Tick>)
    decreases |ticks|, 0
  {
    ticks != [] ==>
      var before, t := ticks[..|ticks| - 1], ticks[|ticks| - 1];
      && WellTimed(start, before)
      && (t.Outcome? ==> t.i < |start| && start[t.i] != Undef && t.i !in Outs(before))
      && (t.Finalise? ==> After(start, before).scheduled > 0)
  }

  ghost function After(start: seq<Cell>, ticks: seq<Tick>): (b: Batch)
    requires WellTimed(start, ticks)
    ensures |b.stack| == |start|
    decreases |ticks|, 1
  {
    if ticks == [] then Begin(start)
    else Step(After(start, ticks[..|ticks| - 1]), ticks[|ticks| - 1])
  }

  // ----- counting -----

  lemma {:induction false} CountUpdate(stack: seq<Cell>, i: nat, c: Cell, d: Cell)
    requires i < |stack|
    ensures Count(stack[i := c], d) == Count(stack, d) - (if stack[i] == d then 1 else 0) + if c == d then 1 else 0
  {
    if i > 0 {
      CountUpdate(stack[1..], i - 1, c, d);
      assert stack[i := c][1..] == stack[1..][i - 1 := c];
    } else {
      assert stack[i := c][1..] == stack[1..];
    }
  }

  lemma {:induction false} CountIsZero(stack: seq<Cell>, c: Cell)
    ensures Count(stack, c) == 0 <==> forall i :: 0 <= i < |stack| ==> stack[i] != c
  {
    if stack != [] {
      CountIsZero(stack[1..], c);
      assert stack == [stack[0]] + stack[1..];
    }
  }

  lemma {:induction false} CountAppend(stack: seq<Cell>, c: Cell, d: Cell)
    ensures Count(stack + [c], d) == Count(stack, d) + if c == d then 1 else 0
  {
    if stack == [] {
      assert stack + [c] == [c];
    } else {
      assert (stack + [c])[1..] == stack[1..] + [c];
      CountAppend(stack[1..], c, d);
    }
  }

  predicate IsFile(start: seq<Cell>, i: nat) {
    i < |start| && start[i] == File
  }

  /** How many of the answers are to files. */
  function FileOuts(start: seq<Cell>, outs: seq<nat>): (r: nat)
    ensures r <= |outs|
  {
    if outs == [] then 0
    else FileOuts(start, outs[..|outs| - 1]) + if IsFile(start, outs[|outs| - 1]) then 1 else 0
  }

  lemma {:induction false} FileOutsAll(start: seq<Cell>, outs: seq<nat>)
    ensures FileOuts(start, outs) == |outs| <==> AllFiles(start, outs)
  {
    if outs != [] {
      var n := |outs| - 1;
      FileOutsAll(start, outs[..n]);
      assert AllFiles(start, outs) <==> AllFiles(start, outs[..n]) && IsFile(start, outs[n]);
    }
  }

  ghost predicate AllFiles(start: seq<Cell>, outs: seq<nat>) {
    forall k :: 0 <= k < |outs| ==> IsFile(start, outs[k])
  }

  // ----- the invariant -----

  /** The first answers, as many as there are files, are those to the files. */
  ghost predicate FilesFirst(start: seq<Cell>, outs: seq<nat>) {
    var c := Count(start, File);
    0 < c <= |outs| && AllFiles(start, outs[..c])
  }

  /** The entries after the given answers. */
  ghost predicate StackAfter(start: seq<Cell>, outs: seq<nat>, stack: seq<Cell>) {
    && |stack| == |start|
    && (forall i :: 0 <= i < |start| ==> stack[i] == if i in outs then Undef else start[i])
    && (forall i: nat :: i in outs ==> i < |start| && start[i] != Undef)
    && Count(stack, File) + FileOuts(start, outs) == Count(start, File)
  }

  /** Files left and answers logged are balanced; the batch is complete exactly if the files came first. */
  ghost predicate Balanced(start: seq<Cell>, ticks: seq<Tick>, b: Batch) {
    var outs := Outs(ticks);
    && StackAfter(start, outs, b.stack) && b.count == Count(start, File)
    && (!b.completed ==> b.log == outs && b.scheduled == 0)
    && (Finals(ticks) == 0 ==> b.log == outs)
    && (b.completed <==> FilesFirst(start, outs))
  }

  function Finals(ticks: seq<Tick>): nat {
    if ticks == [] then 0 else Finals(ticks[..|ticks| - 1]) + if ticks[|ticks| - 1].Finalise? then 1 else 0
  }

  lemma {:induction false} AlwaysBalanced(start: seq<Cell>, ticks: seq<Tick>)
    requires WellTimed(start, ticks)
    ensures Balanced(start, ticks, After(start, ticks))
  {
    if ticks != [] {
      var n := |ticks| - 1;
      AlwaysBalanced(start, ticks[..n]);
      if ticks[n].Outcome? { OutcomeBalanced(start, ticks); }
      else { assert Outs(ticks) == Outs(ticks[..n]); }
    } else {
      CountIsZero(start, File);
    }
  }

  lemma OutcomeBalanced(start: seq<Cell>, ticks: seq<Tick>)
    requires WellTimed(start, ticks) && ticks != [] && ticks[|ticks| - 1].Outcome?
    requires Balanced(start, ticks[..|ticks| - 1], After(start, ticks[..|ticks| - 1]))
    ensures Balanced(start, ticks, After(start, ticks))
  {
    var n := |ticks| - 1;
    var b, i, was := After(start, ticks[..n]), ticks[n].i, Outs(ticks[..n]);
    assert Outs(ticks) == was + [i] && Finals(ticks) == Finals(ticks[..n]);
    StackStep(start, was, b.stack, i);
    FirstsStep(start, was, i);
    DoneIff(start, was + [i], b.stack[i := Undef]);
    hide StackAfter, FilesFirst, AllFiles, AllDone, Outs, Finals;
  }

  lemma StackStep(start: seq<Cell>, was: seq<nat>, stack: seq<Cell>, i: nat)
    requires StackAfter(start, was, stack) && i < |start| && start[i] != Undef && i !in was
    ensures StackAfter(start, was + [i], stack[i := Undef])
  {
    var outs, now := was + [i], stack[i := Undef];
    CountUpdate(stack, i, Undef, File);
    FileOutsStep(start, was, i);
    hide Count, FileOuts;
    forall k: nat ensures k in outs <==> k in was || k == i { MemberAppend(was, i, k); }
    forall k | 0 <= k < |start| ensures now[k] == if k in outs then Undef else start[k] {
      assert stack[k] == if k in was then Undef else start[k];
    }
  }

  lemma MemberAppend(was: seq<nat>, i: nat, k: nat)
    ensures k in was + [i] <==> k in was || k == i
  {
  }

  lemma FileOutsStep(start: seq<Cell>, was: seq<nat>, i: nat)
    ensures FileOuts(start, was + [i]) == FileOuts(start, was) + if IsFile(start, i) then 1 else 0
  {
    assert (was + [i])[..|was|] == was;
  }

  /** The check succeeds when all answers so far, as many as there are files, were to files. */
  lemma DoneIff(start: seq<Cell>, outs: seq<nat>, stack: seq<Cell>)
    requires StackAfter(start, outs, stack)
    ensures AllDone(stack, outs, Count(start, File)) <==> |outs| == Count(start, File) && AllFiles(start, outs)
  {
    CountIsZero(stack, File);
    FileOutsAll(start, outs);
    hide Count, FileOuts, AllFiles;
  }

  /** The files come first after one more answer if they did before, or if this is the last of the files. */
  lemma FirstsStep(start: seq<Cell>, was: seq<nat>, i: nat)
    ensures var outs := was + [i];
      FilesFirst(start, outs) <==> FilesFirst(start, was) || (0 < |outs| == Count(start, File) && AllFiles(start, outs))
  {
    var outs, c := was + [i], Count(start, File);
    if c <= |was| { assert outs[..c] == was[..c]; } else if c == |outs| { assert outs[..c] == outs; }
  }

  // ----- the properties -----

  /** Until the finaliser has run, answers logged and files left add up to uploadAsyncCount, exactly as long as only files were answered. */
  lemma LoggedPlusLeft(start: seq<Cell>, ticks: seq<Tick>)
    requires WellTimed(start, ticks) && Finals(ticks) == 0
    ensures var b := After(start, ticks);
      b.count == Count(start, File) && (|b.log| + Count(b.stack, File) == b.count <==> AllFiles(start, b.log))
  {
    AlwaysBalanced(start, ticks);
    FileOutsAll(start, Outs(ticks));
  }

  /** Without null entries the batch is complete exactly when every request has been answered. */
  lemma CompleteAtLastAnswer(start: seq<Cell>, ticks: seq<Tick>)
    requires WellTimed(start, ticks) && Count(start, Null) == 0
    ensures var b := After(start, ticks);
      && b.count == Count(start, File) && |Outs(ticks)| <= b.count
      && (b.completed <==> 0 < b.count == |Outs(ticks)|)
  {
    AlwaysBalanced(start, ticks);
    var outs := Outs(ticks);
    CountIsZero(start, Null);
    forall k | 0 <= k < |outs| ensures IsFile(start, outs[k]) { assert outs[k] in outs; }
    FileOutsAll(start, outs);
    if 0 < |outs| == Count(start, File) { assert outs[..|outs|] == outs; }
  }

  /** The completions that find the batch complete. */
  ghost function Late(start: seq<Cell>, ticks: seq<Tick>): nat {
    if ticks == [] then 0
    else
      var before := ticks[..|ticks| - 1];
      Late(start, before) + if ticks[|ticks| - 1].Complete? && FilesFirst(start, Outs(before)) then 1 else 0
  }

  /** The finaliser is scheduled by these completions and no others. */
  lemma {:induction false} ScheduledByLate(start: seq<Cell>, ticks: seq<Tick>)
    requires WellTimed(start, ticks)
    ensures After(start, ticks).scheduled == Late(start, ticks)
  {
    if ticks != [] {
      var n := |ticks| - 1;
      ScheduledByLate(start, ticks[..n]);
      AlwaysBalanced(start, ticks[..n]);
    }
  }

  function Completions(ticks: seq<Tick>): nat {
    if ticks == [] then 0 else Completions(ticks[..|ticks| - 1]) + if ticks[|ticks| - 1].Complete? then 1 else 0
  }

  predicate NoOutcome(ticks: seq<Tick>) {
    forall k :: 0 <= k < |ticks| ==> !ticks[k].Outcome?
  }

  /** Whatever the interleaving: without null entries it is scheduled once for every completion after the last answer. */
  lemma {:induction false} ScheduledAfterLastAnswer(start: seq<Cell>, ticks: seq<Tick>, last: nat, rest: seq<Tick>)
    requires WellTimed(start, ticks + [Outcome(last)] + rest) && NoOutcome(rest) && Count(start, Null) == 0
    requires |Outs(ticks)| + 1 == Count(start, File)
    ensures After(start, ticks + [Outcome(last)] + rest).scheduled == Completions(rest)
    decreases |rest|
  {
    var all := ticks + [Outcome(last)] + rest;
    var before := all[..|all| - 1];
    if rest == [] {
      assert before == ticks;
      CompleteAtLastAnswer(start, ticks);
      AlwaysBalanced(start, ticks);
    } else {
      var r := rest[..|rest| - 1];
      assert before == ticks + [Outcome(last)] + r;
      ScheduledAfterLastAnswer(start, ticks, last, r);
      OutsThrough(ticks, last, r);
      CompleteAtLastAnswer(start, before);
    }
  }

  lemma {:induction false} OutsThrough(ticks: seq<Tick>, last: nat, rest: seq<Tick>)
    requires NoOutcome(rest)
    ensures |Outs(ticks + [Outcome(last)] + rest)| == |Outs(ticks)| + 1
    decreases |rest|
  {
    var all := ticks + [Outcome(last)] + rest;
    if rest == [] {
      assert all[..|all| - 1] == ticks;
    } else {
      var r := rest[..|rest| - 1];
      assert all[..|all| - 1] == ticks + [Outcome(last)] + r && all[|all| - 1] == rest[|rest| - 1];
      OutsThrough(ticks, last, r);
    }
  }

  // ----- every completion right after its answer -----

  /** The timers without those of the finaliser. */
  function Requests(ticks: seq<Tick>): seq<Tick> {
    if ticks == [] then []
    else Requests(ticks[..|ticks| - 1]) + if ticks[|ticks| - 1].Finalise? then [] else [ticks[|ticks| - 1]]
  }

  /** Every request is answered and completed, in the given order. */
  function InOrder(order: seq<nat>): seq<Tick> {
    if order == [] then []
    else InOrder(order[..|order| - 1]) + [Outcome(order[|order| - 1]), Complete(order[|order| - 1])]
  }

  lemma {:induction false} OutsOfRequests(start: seq<Cell>, ticks: seq<Tick>)
    ensures Outs(Requests(ticks)) == Outs(ticks) && Late(start, Requests(ticks)) == Late(start, ticks)
  {
    if ticks != [] {
      var n := |ticks| - 1;
      OutsOfRequests(start, ticks[..n]);
      var r := Requests(ticks[..n]);
      if !ticks[n].Finalise? { assert (r + [ticks[n]])[..|r|] == r; } else { assert r + [] == r; }
    }
  }

  lemma {:induction false} InOrderMeans(start: seq<Cell>, order: seq<nat>)
    ensures Outs(InOrder(order)) == order
    ensures Late(start, InOrder(order)) == if FilesFirst(start, order) then |order| - Count(start, File) + 1 else 0
  {
    if order != [] {
      var n := |order| - 1;
      var was, i := InOrder(order[..n]), order[n];
      InOrderMeans(start, order[..n]);
      var one := was + [Outcome(i)];
      var two := InOrder(order);
      assert two == was + [Outcome(i), Complete(i)];
      assert two[..|two| - 1] == one && one[..|one| - 1] == was;
      assert order == order[..n] + [i];
      FirstsStep(start, order[..n], i);
    }
  }

  /** When completions directly follow their answers, the finaliser is scheduled once if and only if no entry is null. */
  lemma FinaliserOnceIff(start: seq<Cell>, ticks: seq<Tick>, order: seq<nat>)
    requires WellTimed(start, ticks) && Requests(ticks) == InOrder(order)
    requires |order| == Count(start, File) + Count(start, Null) && Count(start, File) > 0
    ensures var b := After(start, ticks);
      && b.scheduled == (if FilesFirst(start, order) then Count(start, Null) + 1 else 0)
      && (b.scheduled == 1 <==> Count(start, Null) == 0)
  {
    ScheduledByLate(start, ticks);
    OutsOfRequests(start, ticks);
    InOrderMeans(start, order);
    AlwaysBalanced(start, ticks);
    if Count(start, Null) == 0 { CompleteAtLastAnswer(start, ticks); }
  }

  /** Any order of distinct requests can be answered and completed one by one. */
  lemma {:induction false} OneByOne(start: seq<Cell>, order: seq<nat>)
    requires forall k :: 0 <= k < |order| ==> order[k] < |start| && start[order[k]] != Undef
    requires forall j, k :: 0 <= j < k < |order| ==> order[j] != order[k]
    ensures WellTimed(start, InOrder(order)) && Requests(InOrder(order)) == InOrder(order)
  {
    if order != [] {
      var n := |order| - 1;
      OneByOne(start, order[..n]);
      InOrderMeans(start, order[..n]);
      OneMore(start, InOrder(order[..n]), order[n]);
    }
  }

  lemma OneMore(start: seq<Cell>, was: seq<Tick>, i: nat)
    requires WellTimed(start, was) && Requests(was) == was && i < |start| && start[i] != Undef && i !in Outs(was)
    ensures var all := was + [Outcome(i), Complete(i)]; WellTimed(start, all) && Requests(all) == all
  {
    var one, all := was + [Outcome(i)], was + [Outcome(i), Complete(i)];
    assert all[..|all| - 1] == one && one[..|one| - 1] == was;
    hide After, Outs;
    assert Requests(one) == one;
    assert WellTimed(start, one);
    assert all == one + [Complete(i)];
  }

  lemma ScheduledFor(start: seq<Cell>, i: nat, j: nat)
    requires start == [File, Null] && i + j == 1
    ensures WellTimed(start, InOrder([i, j])) && After(start, InOrder([i, j])).scheduled == if i == 0 then 2 else 0
  {
    var order: seq<nat> := [i, j];
    CountsTwo(start);
    OneByOne(start, order);
    hide Count, After, InOrder, Requests, Outs, Late, WellTimed;
    FinaliserOnceIff(start, InOrder(order), order);
    assert order[..1] == [i];
    assert AllFiles(start, [i]) <==> IsFile(start, [i][0]);
  }

  lemma CountsTwo(start: seq<Cell>)
    requires start == [File, Null]
    ensures Count(start, File) == 1 && Count(start, Null) == 1
  {
    assert start == [] + [File] + [Null];
    CountAppend([], File, File);
    CountAppend([], File, Null);
    CountAppend([] + [File], Null, File);
    CountAppend([] + [File], Null, Null);
  }

  /**
   A file and an image that failed its size check: the finaliser is scheduled twice
   if the file is answered first, and never if it is answered last.
   */
  lemma NullEntryMiscounts()
    ensures var start := [File, Null];
      && WellTimed(start, InOrder([0, 1])) && After(start, InOrder([0, 1])).scheduled == 2
      && WellTimed(start, InOrder([1, 0])) && After(start, InOrder([1, 0])).scheduled == 0
  {
    ScheduledFor([File, Null], 0, 1);
    ScheduledFor([File, Null], 1, 0);
  }

  // ----- the upload object -----

  /** The entries that are submitted: all but the undefined ones. */
  function Submitted(stack: seq<Cell>): seq<nat> {
    if stack == [] then []
    else
      var n := |stack| - 1;
      Submitted(stack[..n]) + if stack[n] != Undef then [n] else []
  }

  class Uploader {
    var filestack: seq<Cell>
    var uploadLog: seq<nat>
    var uploadAsyncCount: nat
    var fileBatchCompleted: bool
    var finalisers: nat  // how often the finaliser has been scheduled, over all batches

    function State(): Batch
      reads this
    {
      Batch(filestack, uploadLog, uploadAsyncCount, fileBatchCompleted, finalisers)
    }

    constructor (stack: seq<Cell>)
      ensures filestack == stack && fileBatchCompleted && finalisers == 0
    {
      filestack, uploadLog, uploadAsyncCount, fileBatchCompleted, finalisers := stack, [], 0, true, 0;
    }

    /** getFileStack().length */
    method FileCount() returns (n: nat)
      ensures n == Count(filestack, File)
    {
      n := 0;
      var i := 0;
      while i < |filestack|
        invariant i <= |filestack| && n == Count(filestack[..i], File)
      {
        assert filestack[..i + 1] == filestack[..i] + [filestack[i]];
        CountAppend(filestack[..i], filestack[i], File);
        if filestack[i] != Undef && filestack[i] != Null { n := n + 1; }
        i := i + 1;
      }
      assert filestack[..i] == filestack;
    }

    /** upload with uploadAsync; nothing happens on a stack without files. */
    method Upload() returns (submitted: seq<nat>)
      modifies this
      ensures Count(filestack, File) > 0 ==>
        State() == Begin(old(filestack)).(scheduled := old(finalisers)) && submitted == Submitted(filestack)
      ensures Count(filestack, File) == 0 ==> State() == old(State()) && submitted == []
    {
      submitted := [];
      var total := FileCount();
      if total == 0 { return; }
      uploadLog := [];
      fileBatchCompleted := false;
      uploadAsyncCount := total;
      var i := 0;
      while i < |filestack|
        invariant i <= |filestack| && filestack == old(filestack) && submitted == Submitted(filestack[..i])
        invariant State() == Begin(filestack).(scheduled := old(finalisers))
      {
        assert filestack[..i + 1][..i] == filestack[..i];
        if filestack[i] != Undef {
          fileBatchCompleted := false;
          submitted := submitted + [i];
        }
        i := i + 1;
      }
      assert filestack[..i] == filestack;
    }

    method CheckAsyncComplete() returns (done: bool)
      ensures done == AllDone(filestack, uploadLog, uploadAsyncCount)
    {
      var i := 0;
      while i < |filestack|
        invariant i <= |filestack| && forall k :: 0 <= k < i && filestack[k] == File ==> k in uploadLog
      {
        if filestack[i] == File && i !in uploadLog { return false; }
        i := i + 1;
      }
      done := uploadAsyncCount == |uploadLog|;
    }

    /** updateUploadLog, in the timer of a success or an error. */
    method Answered(i: nat)
      requires i < |filestack|
      modifies this
      ensures State() == Step(old(State()), Outcome(i))
    {
      filestack := filestack[i := Undef];
      uploadLog := uploadLog + [i];
      var done := CheckAsyncComplete();
      if done { fileBatchCompleted := true; }
    }

    /** chkComplete, in the timer of a completion. */
    method Completed(i: nat)
      modifies this
      ensures State() == Step(old(State()), Complete(i))
    {
      if !fileBatchCompleted { return; }
      finalisers := finalisers + 1;
    }

    /** The part of the finaliser that concerns the batch. */
    method Finish()
      modifies this
      ensures State() == Step(old(State()), Finalise)
    {
      uploadLog := [];
    }
  }
}
