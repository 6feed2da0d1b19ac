# Verified models of the client-side cores

The web application ships most of its hard logic as JavaScript. This project models the state machines in it
and proves what they promise: jQuery 1.8.0 (callback lists, Deferred, `then`, `when`, the Sizzle selector engine
and its document order, event handler lists and dispatch, the data cache, the fx queue, the ajax converter chain),
the asynchronous batch upload of fileinput.js, the credit card rule of the validation engine, and the watermark grid.

Every main theorem quantifies over all inputs, all runs or all reachable states. `dafny verify dfyconfig.toml`
checks the whole project.

## How the pieces fit

- **Callback lists.** `CallbackList` is the closure state of `jQuery.Callbacks` as a value, cut where `fire` hands
  control to foreign code; `CallbackClass` is the mutable object, proved against it; `CallbackQueue` shows that the
  cursor arithmetic is a worklist in disguise; `CallbackRuns` draws the conclusions for whole runs, `CallbackViews` says
  what one callback gets to see, and `CallbackOptions` what each option, lock and disable promise.
- **Deferred.** `Deferred` and `DeferredClass` wire three such lists together. `DeferredRuns`, `DeferredLife` and
  `DeferredEffects` follow one Deferred through any sequence of re-entrant calls, `DeferredProgress` its notifications.
- **then and when.** `Promises` is a machine of many Deferreds with an explicit control stack and a most general
  client: whenever client code is in control it may make Deferreds, settle, listen, call `then` or `when`, or return.
  `PromiseShape`, `Then`, `ThenLive`, `ThenChains` and `ThenLimits` treat `then`; `Countdown`, `CountdownSteps` and
  `WhenOutcome` treat what `when` answers. Which rejection it answers with is the matter of `WhenOrder`, `WhenLoop` and
  `FirstRejection` (when it is the first), `Cascade` and `Overtaking` (when a later one comes before it), `RejectionOrder`
  (the exact conditions) and `WhenLimits` (one run in full). Notifications are followed through `then` and `when` by
  `Notifications` (one operation), `ProgressFlow` (where the values come from), `ProgressSteps`, `ProgressOrder` and
  `ProgressReports` (which values, in which order, and how many). `Registrations` keeps account of who listens to whom,
  and `PromiseRuns` takes what holds of one Deferred over to all of them.
- **Sizzle.** `Selectors` has the plain meaning of the combinators (section 8 of W3C Selectors Level 3) and the
  compiled closures; `SelectorEngine` runs those closures with their stamps on the nodes; `StampKeys` is about the keys.
  `DocumentOrder` and `UniqueResults` cover the comparator, uniqueSort and the de-duplication in `find`.
- **Events and data.** `Events` and `Namespaces` keep the handler lists, `Dispatch` runs them. `DataCache` is the store as
  a value with its operations; `DataClass` is the mutable store with the re-entrant clean-up. `FxQueue` is the fx queue.
- **Smaller cores.** `AjaxConvert`, `AjaxRoutes`, `AjaxPaths`, `AjaxLimits`; `UploadBatch`; `CreditCard`; `Watermark`.

Foreign code never appears as a Dafny function that is trusted: where the source calls it, the machine stops, and every
lemma about runs quantifies over what is done next.

## Where the code does not keep what it seems to promise

The model follows the code. Each of these is a lemma with a concrete run or input, next to the condition under which
the promise holds.

- `then`: a progress handler that returns a promise makes the derived promise adopt it, so it can settle while its source
  is pending (`ThenLimits.ProgressHandlerBreaksTheFold`); the fold holds exactly without a progress handler
  (`ThenLimits.FoldsIffNoProgressHandler`).
- `when` does not always reject with the first rejection. Of promises rejected before the call the lowest position wins,
  whichever was rejected first (`FirstRejection.LowestRejectionWins`, `RejectionOrder.EarlierRejectionPassedOver`); a
  promise whose fail callbacks are running at the call is passed over, because the listener has to wait for them (if all
  rejected ones are in that state, which rejection is delivered first depends on what those callbacks do next). Of
  later rejections the master takes the one delivered first (`WhenLimits.LaterRejectionOvertakes`), and that is the first
  in every continuation exactly if nobody alive listens for failure before `when` does
  (`RejectionOrder.FirstWinsIffUnheard` at the call, `RejectionOrder.FirstWinsIffReady` at any later rest).
- `ajaxConvert`: a converter registered with a false value can make the loop run for ever
  (`AjaxLimits.FalseConverterLoops`); it ends exactly if the insertions do (`AjaxLimits.LoopEndsIff`).
- Event namespaces: a requested name goes into a regular expression unescaped, so one with special characters may miss
  its own handlers (`Namespaces.MetaNameIsMissed`) or find others; without them the filter is exact
  (`Namespaces.NamespaceFilter`). That is the sufficient half only: which other names happen to find the right handlers
  is a question about the whole grammar of regular expressions.
- `data`: a key stored from an object in its dashed form hides later writes under that name
  (`DataCache.MergedKeyHidesWrite`, `DataCache.ReadsBackIff`).
- Batch upload: an image that failed its size check leaves a null entry, which is submitted but not counted, so if it is
  answered the finaliser is scheduled never or too often (`UploadBatch.NullEntryMiscounts`, `UploadBatch.FinaliserOnceIff`).
- Watermark: a count cut down to one makes the gap a division by zero (`Watermark.SingleMarkIsLost`,
  `Watermark.PlacedIffNotSingle`).

## Model

| member | source | states |
|---|---|---|
| CallbackQueue.RunRefines | devplat-0.0.1/src/main/webapp/WEB-INF/js/jquery-1.8.0.js:965-1094 | the re-entrant list with its live cursor behaves, over every sequence of add, remove, fire, return, lock and disable, like a plain queue of the callbacks still to be called |
| CallbackQueue.StepRefines | devplat-0.0.1/src/main/webapp/WEB-INF/js/jquery-1.8.0.js:965-1094 | one operation of the cursor form is one operation of the queue form, in every well-formed state, firing or not |
| CallbackList.RemoveKeepsCursor | devplat-0.0.1/src/main/webapp/WEB-INF/js/jquery-1.8.0.js:1022-1041 | remove while firing deletes every occurrence, keeps `firingLength == length of list` and the cursor inside the list, and leaves exactly the filtered old rest to run |
| CallbackList.DoWf | devplat-0.0.1/src/main/webapp/WEB-INF/js/jquery-1.8.0.js:965-1094 | every operation, firing or not, keeps the state well formed: while firing, `firingLength` is the length of the list and the cursor is at least -1 and below it |
| CallbackRuns.RequestsRunInOrder | devplat-0.0.1/src/main/webapp/WEB-INF/js/jquery-1.8.0.js:965-990 | on a repeatable list that is not locked or disabled, every accepted fire request is begun once, in order of request, no two walks interleave, and none is left when the outermost fire has returned |
| CallbackRuns.DueCallbacksRunOnce | devplat-0.0.1/src/main/webapp/WEB-INF/js/jquery-1.8.0.js:965-1041 | whatever is added or removed during a walk, a callback that is not itself edited runs exactly as often as it was due: no survivor is skipped or run twice |
| CallbackViews.SeesFromItsTime | devplat-0.0.1/src/main/webapp/WEB-INF/js/jquery-1.8.0.js:971-1084 | on a list with memory that may fire again, whatever else is added, removed or fired: a callback added once is called with the value of the request begun last before, if any, and with those of all later requests, once each and in order, and none is missing when the list is idle |
| CallbackOptions.NobodyTwice | devplat-0.0.1/src/main/webapp/WEB-INF/js/jquery-1.8.0.js:1000-1002 | unique: whatever is done to the list, no callback is on it twice |
| CallbackOptions.AddedAsGiven | devplat-0.0.1/src/main/webapp/WEB-INF/js/jquery-1.8.0.js:1000-1002 | without unique every callback is added, repeated ones too |
| CallbackOptions.FiredOnce | devplat-0.0.1/src/main/webapp/WEB-INF/js/jquery-1.8.0.js:963-986 | once: at most one request is ever accepted, and nothing is ever called with any other value |
| CallbackOptions.LastIsRemembered | devplat-0.0.1/src/main/webapp/WEB-INF/js/jquery-1.8.0.js:965-967 | memory: while the list is in use it remembers the value of the walk begun last |
| CallbackOptions.AddedIsTold | devplat-0.0.1/src/main/webapp/WEB-INF/js/jquery-1.8.0.js:1010-1017 | memory: a callback added to an idle list that remembers a value is called with it at once, and no other is |
| CallbackOptions.AfterReturn | devplat-0.0.1/src/main/webapp/WEB-INF/js/jquery-1.8.0.js:972-990 | after a callback returns the next one of the walk is called with the same value; after a refusal under stopOnFalse, or at the end, nothing is called before a waiting request begins |
| CallbackOptions.RefusalForgets | devplat-0.0.1/src/main/webapp/WEB-INF/js/jquery-1.8.0.js:973-976 | after a refusal under stopOnFalse the list remembers nothing until a request is run |
| CallbackOptions.LockIsFinal | devplat-0.0.1/src/main/webapp/WEB-INF/js/jquery-1.8.0.js:1061-1067 | lock: whatever is done afterwards, no request is accepted any more |
| CallbackOptions.DisableIsFinal | devplat-0.0.1/src/main/webapp/WEB-INF/js/jquery-1.8.0.js:1052-1055 | disable: whatever is done afterwards, nothing is called any more |
| CallbackClass.InArray | devplat-0.0.1/src/main/webapp/WEB-INF/js/jquery-1.8.0.js:656-680 | the first position of a value at or after a start, or -1 exactly if there is none |
| CallbackClass.SpliceTracks | devplat-0.0.1/src/main/webapp/WEB-INF/js/jquery-1.8.0.js:1026-1037 | splicing out the first occurrence keeps list and firing marks in step with removing all occurrences |
| CallbackClass.Callbacks.SpliceAll | devplat-0.0.1/src/main/webapp/WEB-INF/js/jquery-1.8.0.js:1025-1038 | the while loop of remove: the object ends in the state of `CallbackList.Remove` |
| CallbackClass.Callbacks.AddAll | devplat-0.0.1/src/main/webapp/WEB-INF/js/jquery-1.8.0.js:994-1020 | add on the mutable object, with the `unique` test and the immediate run of a list with memory |
| CallbackClass.Callbacks.FireWithData | devplat-0.0.1/src/main/webapp/WEB-INF/js/jquery-1.8.0.js:1073-1084 | fireWith on the mutable object: runs, queues or ignores the request |
| CallbackClass.Callbacks.Returned | devplat-0.0.1/src/main/webapp/WEB-INF/js/jquery-1.8.0.js:971-990 | the loop of fire resumed after a callback, with stopOnFalse and the waiting requests |
| DeferredLife.LifeOfADeferred | devplat-0.0.1/src/main/webapp/WEB-INF/js/jquery-1.8.0.js:1096-1182 | for every run of re-entrant client code: the first resolve or reject decides; the callbacks of that side, registered before, during or after, run exactly once each, in registration order, with the settled value, while the state is already final; those of the other side never run |
| DeferredLife.SettledForGood | devplat-0.0.1/src/main/webapp/WEB-INF/js/jquery-1.8.0.js:1153-1173 | after settling nothing changes the state, and progress callbacks only ever see the value memorised last |
| DeferredRuns.SettleEffect | devplat-0.0.1/src/main/webapp/WEB-INF/js/jquery-1.8.0.js:1153-1166 | resolve or reject on a pending Deferred: state, disabled other side and locked progress list are in place before the first client callback runs |
| DeferredRuns.AddSettled | devplat-0.0.1/src/main/webapp/WEB-INF/js/jquery-1.8.0.js:994-1018 | a callback added to the settled side runs at once, or in its turn if that side is still running |
| DeferredRuns.FireSettled | devplat-0.0.1/src/main/webapp/WEB-INF/js/jquery-1.8.0.js:1073-1084 | resolve, reject and notify after settling do nothing |
| DeferredClass.DeferredObject.FireKind | devplat-0.0.1/src/main/webapp/WEB-INF/js/jquery-1.8.0.js:1165-1173 | resolve, reject or notify on the object made of three lists |
| DeferredClass.DeferredObject.Register | devplat-0.0.1/src/main/webapp/WEB-INF/js/jquery-1.8.0.js:1153-1160 | done, fail or progress on the object made of three lists |
| DeferredClass.DeferredObject.CallbackReturned | devplat-0.0.1/src/main/webapp/WEB-INF/js/jquery-1.8.0.js:971-990 | the object after one of its client callbacks returned |
| DeferredEffects.SettleDue | devplat-0.0.1/src/main/webapp/WEB-INF/js/jquery-1.8.0.js:1153-1173 | what settling leaves due: exactly the observers of the settled side |
| DeferredProgress.ProgressIsItsList | devplat-0.0.1/src/main/webapp/WEB-INF/js/jquery-1.8.0.js:1153-1173 | for every run of re-entrant client code: the progress side is a list with memory to which the progress callbacks were added, which was fired by the notifications and locked by the first settlement, and the callbacks run are exactly those that this list calls |
| DeferredProgress.NotificationsInOrder | devplat-0.0.1/src/main/webapp/WEB-INF/js/jquery-1.8.0.js:1077-1083 | while the Deferred is pending every notification is accepted, no two walks interleave, and the notifications begun followed by those waiting are all notifications made, in order |
| DeferredProgress.EachProgressCallbackSees | devplat-0.0.1/src/main/webapp/WEB-INF/js/jquery-1.8.0.js:971-1018 | while the Deferred is pending, whatever client code does: a progress callback registered once is called with the value notified last before, if any, and with every later one, once each and in order, and none is missing when the list is idle |
| PromiseRuns.EveryDeferredHasRun | devplat-0.0.1/src/main/webapp/WEB-INF/js/jquery-1.8.0.js:1116-1237 | in every run of the whole system each Deferred, made by client code, by `then` or by `when`, is where some run of a single Deferred leads, so what holds of all those runs holds of it |
| ThenChains.ChainIsFold | devplat-0.0.1/src/main/webapp/WEB-INF/js/jquery-1.8.0.js:1116-1140 | in every run of the most general client that has come to rest, the outcome of a chain of n calls of `then` is the fold of its stages over the outcome of the source, the handlers of each stage answering as they please, with values or with promises that may be new at every stage |
| ThenChains.TimingIsIrrelevant | devplat-0.0.1/src/main/webapp/WEB-INF/js/jquery-1.8.0.js:1116-1140 | two runs of two clients with the same handlers agree on the chain if the sources have the same outcome and the handlers of each stage answered the same values, or promises with the same outcome, whatever their identities and whenever anything settled |
| ThenChains.StageAtRest | devplat-0.0.1/src/main/webapp/WEB-INF/js/jquery-1.8.0.js:1116-1140 | one stage: a missing handler passes through, a plain answer keeps the side, a promise is adopted, and a pending source leaves the stage pending |
| ThenLimits.ProgressHandlerBreaksTheFold | devplat-0.0.1/src/main/webapp/WEB-INF/js/jquery-1.8.0.js:1118-1136 | a progress handler that answers with a promise lets the derived promise settle while its source never does |
| ThenLimits.FoldsIffNoProgressHandler | devplat-0.0.1/src/main/webapp/WEB-INF/js/jquery-1.8.0.js:1116-1140 | `then` is the fold for every client if and only if no progress handler is given |
| ProgressFlow.NotificationsOfThen | devplat-0.0.1/src/main/webapp/WEB-INF/js/jquery-1.8.0.js:1123-1136 | in every run, whatever a derived promise is notified with was notified on its source, if it has no progress handler, or is what that handler answered, or was notified on a promise that one of its handlers returned |
| ProgressFlow.HandlersHearTheSource | devplat-0.0.1/src/main/webapp/WEB-INF/js/jquery-1.8.0.js:1123-1125 | in every run a progress handler is only called with what its source was notified with |
| ProgressOrder.NotificationsAreExact | devplat-0.0.1/src/main/webapp/WEB-INF/js/jquery-1.8.0.js:1123-1136 | in every run, if the handlers of a derived promise answered no promise: while it is pending it has been notified with exactly what its source told the callback that stands for it, or exactly what its progress handler answered, in that order and nothing missing; once settled it hears no more |
| ProgressOrder.PlainAnswerIsAccepted | devplat-0.0.1/src/main/webapp/WEB-INF/js/jquery-1.8.0.js:1125-1133 | a progress handler that answers v while its derived promise is pending notifies it with v, whatever client code would do next |
| ProgressOrder.HandIsAccepted | devplat-0.0.1/src/main/webapp/WEB-INF/js/jquery-1.8.0.js:1125-1136 | what library code is about to notify to a pending Deferred is accepted at once |
| Registrations.RegistrationsAreExact | devplat-0.0.1/src/main/webapp/WEB-INF/js/jquery-1.8.0.js:1116-1231 | in every run: each handler of `then`, or what stands in for it, is registered once on its list of the source, each promise that a handler returned is listened to once on each list for that answer, and each promise among the arguments of `when` gets its three listeners once for each position; at rest none of these is missing, and there are no others |
| Registrations.HandlersRunOnce | devplat-0.0.1/src/main/webapp/WEB-INF/js/jquery-1.8.0.js:1123-1136 | at rest, if the source has settled, the handler for that outcome has been run exactly once, with the value of the source, and the other one not at all |
| PromiseShape.StepShape | devplat-0.0.1/src/main/webapp/WEB-INF/js/jquery-1.8.0.js:965-990 | the control stack and the firing lists correspond in every step of every run |
| WhenOutcome.WhenAtRest | devplat-0.0.1/src/main/webapp/WEB-INF/js/jquery-1.8.0.js:1188-1237 | in every run of the most general client at rest: the master is resolved with all values in position iff every promise resolved, rejected with a rejection of one of them iff some promise was rejected, pending otherwise; `remaining` equals the number of positions whose promise is pending or rejected |
| CountdownSteps.StepWhen | devplat-0.0.1/src/main/webapp/WEB-INF/js/jquery-1.8.0.js:1197-1231 | every step keeps `remaining` equal to the open positions and keeps for every open position exactly one observer or visit that can close it, so no position is counted twice, even when promises settle inside the setup loop |
| ProgressFlow.NotificationsOfWhen | devplat-0.0.1/src/main/webapp/WEB-INF/js/jquery-1.8.0.js:1199-1206 | in every run, whatever the master is notified with lists, position by position, nothing or a value that this promise was notified with |
| ProgressReports.NotificationsOfMaster | devplat-0.0.1/src/main/webapp/WEB-INF/js/jquery-1.8.0.js:1199-1206 | in every run each notification of the master differs from the one before in the position of one promise, and while the master is pending there is one for each notification of a promise that `when` was told of, the newest listing what each of them notified last |
| FirstRejection.LowestRejectionWins | devplat-0.0.1/src/main/webapp/WEB-INF/js/jquery-1.8.0.js:1215-1231 | if promises were rejected before the call, and the fail callbacks of the one at the lowest such position are not running at that moment, the master takes its rejection in every continuation, before client code is in control again |
| FirstRejection.FirstInTimeWins | devplat-0.0.1/src/main/webapp/WEB-INF/js/jquery-1.8.0.js:1215-1231 | if no promise is rejected at the call and whoever listens for failure on the pending ones only forwards to something settled, then in every continuation, re-entrant or not, the master takes the rejection that happened first |
| RejectionOrder.FirstWinsIffUnheard | devplat-0.0.1/src/main/webapp/WEB-INF/js/jquery-1.8.0.js:1188-1231 | for a call with several arguments, none rejected, of which two or more are pending and belong to Deferreds that client code settles: the first rejection wins in every continuation if and only if that condition on the listeners holds at the call |
| RejectionOrder.FirstWinsIffReady | devplat-0.0.1/src/main/webapp/WEB-INF/js/jquery-1.8.0.js:1188-1231 | the same at any later rest: the first rejection wins from there on if and only if only dead observers are due before the listener of `when` on every pending promise |
| RejectionOrder.SomeListenerOvertakes | devplat-0.0.1/src/main/webapp/WEB-INF/js/jquery-1.8.0.js:1215-1231 | for a call whose pending promises belong to Deferreds that client code settles, none rejected: if client code, or a forwarder to something pending, listens for failure on a pending one at the call and another one is pending, some continuation gives the master the rejection that came second |
| RejectionOrder.EarlierRejectionPassedOver | devplat-0.0.1/src/main/webapp/WEB-INF/js/jquery-1.8.0.js:1215-1225 | without any re-entrancy: rejecting the second Deferred, then the first, then calling `when` on both gives the master the later rejection |
| WhenOrder.ReadyFirstWins | devplat-0.0.1/src/main/webapp/WEB-INF/js/jquery-1.8.0.js:1215-1231 | from any state of any run in which only dead observers are due before the listener of `when`, the first rejection reaches the master in every continuation |
| FirstRejection.StepLoop | devplat-0.0.1/src/main/webapp/WEB-INF/js/jquery-1.8.0.js:1212-1231 | each step of the registration loop keeps its description: the lowest position lost so far has decided, the listener stands right after the observers of the call, and less is left to do |
| Cascade.Unwind | devplat-0.0.1/src/main/webapp/WEB-INF/js/jquery-1.8.0.js:1165-1173 | if client code only returns, the cascade of one rejection ends with the stack as it was, and the master whose listener was due on the way has been rejected with the same value |
| Overtaking.Descend | devplat-0.0.1/src/main/webapp/WEB-INF/js/jquery-1.8.0.js:971-990 | after p is rejected, library code runs on until client code gets control, with the promise q chosen to be rejected next still pending and the master undecided |
| WhenOutcome.FirstRejectionWins | devplat-0.0.1/src/main/webapp/WEB-INF/js/jquery-1.8.0.js:1215-1231 | if at some rest one promise alone is rejected, the master has that rejection for good, whatever follows |
| WhenLimits.LaterRejectionOvertakes | devplat-0.0.1/src/main/webapp/WEB-INF/js/jquery-1.8.0.js:1215-1231 | a fail callback that rejects a second promise can make the second rejection reach the master first |
| SelectorEngine.Sizzle.Select | devplat-0.0.1/src/main/webapp/WEB-INF/js/jquery-1.8.0.js:4972-4984 | a pass accepts exactly the elements that the plain meaning of the comma group accepts, in order, and leaves a memory on the nodes that cannot mislead any later pass of any compiled group, on a document that may have changed in between |
| SelectorEngine.Sizzle.Search | devplat-0.0.1/src/main/webapp/WEB-INF/js/jquery-1.8.0.js:4809-4830 | the memoising descendant and general-sibling search agrees with the plain meaning and trusts only sound stamps |
| SelectorEngine.Sizzle.Match | devplat-0.0.1/src/main/webapp/WEB-INF/js/jquery-1.8.0.js:4791-4842 | running a compiled matcher gives the plain meaning and keeps all stamps sound |
| SelectorEngine.Sizzle.Compile | devplat-0.0.1/src/main/webapp/WEB-INF/js/jquery-1.8.0.js:4844-4894 | compiling a comma group: every alternative means what its tokens mean, and all its combinators get names of their own |
| SelectorEngine.HitSameRun | devplat-0.0.1/src/main/webapp/WEB-INF/js/jquery-1.8.0.js:4815-4816 | a stamp of the same run and combinator heads a failed tail, so the search may give up there |
| SelectorEngine.HitSamePass | devplat-0.0.1/src/main/webapp/WEB-INF/js/jquery-1.8.0.js:4817-4820 | a stamp of the same pass and combinator carries a verdict that may be trusted |
| Selectors.CompiledMeans | devplat-0.0.1/src/main/webapp/WEB-INF/js/jquery-1.8.0.js:4834-4858 | the closures built from left to right mean what the token list means from right to left |
| Selectors.SelectsIffChain | devplat-0.0.1/src/main/webapp/WEB-INF/js/jquery-1.8.0.js:4791-4842 | a token list selects an element exactly if there is a chain of elements that ends at it, each compound matched by its element, neighbours related by the combinator between them, a leading combinator hanging on the context |
| SelectorEngine.AcceptedParts | devplat-0.0.1/src/main/webapp/WEB-INF/js/jquery-1.8.0.js:4860-4871 | each element is judged alone, by whether some alternative of the comma group selects it |
| Selectors.SearchReaches | devplat-0.0.1/src/main/webapp/WEB-INF/js/jquery-1.8.0.js:4809-4830 | the descendant and general-sibling combinators relate an element to all elements one or more links away |
| Selectors.NearestReaches | devplat-0.0.1/src/main/webapp/WEB-INF/js/jquery-1.8.0.js:4801-4808 | the child and adjacent-sibling combinators relate an element to the nearest element only |
| Selectors.ChildOfParent | devplat-0.0.1/src/main/webapp/WEB-INF/js/jquery-1.8.0.js:4801-4808 | on a tree whose non-element nodes are roots the child combinator relates an element to its parent |
| StampKeys.PrefixIsExact | devplat-0.0.1/src/main/webapp/WEB-INF/js/jquery-1.8.0.js:4811-4818 | the prefix test on stamps identifies combinator and pass, because pass numbers only grow |
| StampKeys.KeyInjective | devplat-0.0.1/src/main/webapp/WEB-INF/js/jquery-1.8.0.js:4811-4816 | equal keys have equal combinator, pass and run |
| StampKeys.PrefixAloneIsNotExact | devplat-0.0.1/src/main/webapp/WEB-INF/js/jquery-1.8.0.js:4817-4817 | without the growth of pass numbers the prefix test would confuse pass 1 with pass 10 |
| DocumentOrder.SortOrder | devplat-0.0.1/src/main/webapp/WEB-INF/js/jquery-1.8.0.js:4538-4596 | on nodes of one tree the comparator is exactly preorder: negative iff the first comes before, positive iff after, zero iff identical |
| DocumentOrder.SiblingCheck | devplat-0.0.1/src/main/webapp/WEB-INF/js/jquery-1.8.0.js:4598-4615 | for children of one node the walk along nextSibling gives their order |
| DocumentOrder.OrderByChains | devplat-0.0.1/src/main/webapp/WEB-INF/js/jquery-1.8.0.js:4562-4595 | ancestors come before descendants, and otherwise two nodes are ordered as the children in which their ancestor chains part |
| DocumentOrder.Ancestors | devplat-0.0.1/src/main/webapp/WEB-INF/js/jquery-1.8.0.js:4571-4583 | the unshift loop yields the chain of ancestors from the root down |
| DocumentOrder.BeforeIsOrder | devplat-0.0.1/src/main/webapp/WEB-INF/js/jquery-1.8.0.js:4538-4596 | preorder precedence is irreflexive, antisymmetric and total |
| DocumentOrder.BeforeTransitive | devplat-0.0.1/src/main/webapp/WEB-INF/js/jquery-1.8.0.js:4538-4596 | preorder precedence is transitive |
| UniqueResults.Results.UniqueSort | devplat-0.0.1/src/main/webapp/WEB-INF/js/jquery-1.8.0.js:4618-4636 | the result is strictly increasing and is exactly the sequence of the given nodes, once each, in document order |
| UniqueResults.Results.DropRepeats | devplat-0.0.1/src/main/webapp/WEB-INF/js/jquery-1.8.0.js:4626-4631 | the splice loop makes a sorted list strictly increasing and keeps its members |
| UniqueResults.IncreasingIsUnique | devplat-0.0.1/src/main/webapp/WEB-INF/js/jquery-1.8.0.js:4618-4636 | a strictly increasing list is determined by its members |
| UniqueResults.Results.Find | devplat-0.0.1/src/main/webapp/WEB-INF/js/jquery-1.8.0.js:5167-5186 | the nested loops compute the in-order merge of the results per context |
| UniqueResults.MergedIsUnion | devplat-0.0.1/src/main/webapp/WEB-INF/js/jquery-1.8.0.js:5167-5186 | for duplicate-free results per context the merge is their union, each node where it first occurs |
| UniqueResults.FirstOccurrencesInOrder | devplat-0.0.1/src/main/webapp/WEB-INF/js/jquery-1.8.0.js:5167-5186 | of two nodes in that union the one that occurs first comes first |
| UniqueResults.WhenMergedIsDistinct | devplat-0.0.1/src/main/webapp/WEB-INF/js/jquery-1.8.0.js:5167-5186 | the merge is duplicate-free if and only if no context repeats a node that no earlier context had |
| AjaxConvert.AjaxConvert | devplat-0.0.1/src/main/webapp/WEB-INF/js/jquery-1.8.0.js:7857-7940 | with converters that all count as true, the loop that inserts into the list it walks ends within three iterations per type, inserts at most one type per listed type, and returns what the plain fold over the listed types returns; an exception leaves it only if `throws` is set, and is reported as a parser error only if it is not |
| AjaxConvert.Advance | devplat-0.0.1/src/main/webapp/WEB-INF/js/jquery-1.8.0.js:7879-7937 | one iteration of the loop, for any table of converters |
| AjaxConvert.FindConverter | devplat-0.0.1/src/main/webapp/WEB-INF/js/jquery-1.8.0.js:7887-7913 | the direct or wildcard converter, else the first pair, with equivalences condensed |
| AjaxConvert.StepKeeps | devplat-0.0.1/src/main/webapp/WEB-INF/js/jquery-1.8.0.js:7879-7937 | an iteration does not change what is still to come, and the bound on what is left goes down |
| AjaxRoutes.ConversionFollowsRoute | devplat-0.0.1/src/main/webapp/WEB-INF/js/jquery-1.8.0.js:7879-7940 | the outcome is that of a route: from listed type to listed type by the converter for exactly that pair, else the wildcard one, else the first pair through a type in between in the order of registration, each called with what the one before returned, up to the first that is missing or throws; that exception is caught and reported unless `throws` is set, and then it goes to the caller |
| AjaxRoutes.RouteExists | devplat-0.0.1/src/main/webapp/WEB-INF/js/jquery-1.8.0.js:7879-7940 | there is such a route for every input |
| AjaxPaths.ConversionIsTypeCorrect | devplat-0.0.1/src/main/webapp/WEB-INF/js/jquery-1.8.0.js:7879-7940 | if every converter respects some meaning of the types, so does a successful conversion: its result is of the last listed type |
| AjaxPaths.ConversionPassesThrough | devplat-0.0.1/src/main/webapp/WEB-INF/js/jquery-1.8.0.js:7879-7940 | a successful conversion goes through every listed type |
| AjaxPaths.NoConversionIff | devplat-0.0.1/src/main/webapp/WEB-INF/js/jquery-1.8.0.js:7887-7929 | "No conversion" is reported exactly when there is neither a direct or wildcard converter nor a pair of converters |
| AjaxLimits.FalseConverterLoops | devplat-0.0.1/src/main/webapp/WEB-INF/js/jquery-1.8.0.js:7891-7911 | a key whose converter is a false value can make the loop insert types for ever |
| AjaxLimits.LoopGetsPastIff | devplat-0.0.1/src/main/webapp/WEB-INF/js/jquery-1.8.0.js:7879-7937 | for any table of converters: the loop gets past a listed type, or ends, if and only if following the inserted types stops within as many insertions as there are keys, or a converter throws on the way |
| AjaxLimits.LoopEndsIff | devplat-0.0.1/src/main/webapp/WEB-INF/js/jquery-1.8.0.js:7879-7940 | for any table of converters and any list of types: the loop comes to an outcome if and only if, type by type, the insertions on the way come to an end, up to the end of the list or the first conversion that is missing or throws |
| AjaxLimits.LiveWalksAreShort | devplat-0.0.1/src/main/webapp/WEB-INF/js/jquery-1.8.0.js:7894-7911 | without false converters it stops after one |
| Namespaces.NamespaceFilter | devplat-0.0.1/src/main/webapp/WEB-INF/js/jquery-1.8.0.js:2786-2794 | the regular expression built from the sorted requested names, if they are free of special characters, matches the sorted, joined names of a handler if and only if the requested ones are a sub-multiset of them |
| Namespaces.PatternMeans | devplat-0.0.1/src/main/webapp/WEB-INF/js/jquery-1.8.0.js:2786-2786 | the expression matches exactly the texts in which the names occur in order as whole components |
| Namespaces.FoundIffWithin | devplat-0.0.1/src/main/webapp/WEB-INF/js/jquery-1.8.0.js:2710-2710 | being found in the joined text is being contained, in order, in the list of names |
| Namespaces.MetaNameIsMissed | devplat-0.0.1/src/main/webapp/WEB-INF/js/jquery-1.8.0.js:2786-2786 | names go into the expression as they are: asking for a+b does not find a handler in that namespace |
| Events.AskedIsTest | devplat-0.0.1/src/main/webapp/WEB-INF/js/jquery-1.8.0.js:2792-2795 | what the model of event.remove asks of a handler is the condition of the loop, with its regular expression |
| Dispatch.EligibleIsTest | devplat-0.0.1/src/main/webapp/WEB-INF/js/jquery-1.8.0.js:3055-3055 | what the model of dispatch asks of a handler is the condition of its loop, with the regular expression of the event |
| Events.ElementEvents.Add | devplat-0.0.1/src/main/webapp/WEB-INF/js/jquery-1.8.0.js:2717-2744 | event.add: the list stays laid out with the delegated handlers first, each group in order of registration |
| Events.ElementEvents.Remove | devplat-0.0.1/src/main/webapp/WEB-INF/js/jquery-1.8.0.js:2780-2816 | event.remove for one type: exactly the handlers asked for go, layout and delegateCount stay right, and an empty list disappears |
| Events.ElementEvents.RemoveEverywhere | devplat-0.0.1/src/main/webapp/WEB-INF/js/jquery-1.8.0.js:2772-2777 | event.remove without a type applies to every type |
| Events.SpliceAsked | devplat-0.0.1/src/main/webapp/WEB-INF/js/jquery-1.8.0.js:2789-2805 | the splice loop removes exactly the handlers asked for and keeps count of the delegated ones |
| Events.RegisteredIsSurviving | devplat-0.0.1/src/main/webapp/WEB-INF/js/jquery-1.8.0.js:2739-2805 | after any sequence of add and remove the registered handlers are those added and not asked for by any later remove, in the order they were added |
| Events.LaidGroups | devplat-0.0.1/src/main/webapp/WEB-INF/js/jquery-1.8.0.js:2739-2744 | the first delegateCount handlers are exactly the delegated ones |
| Dispatch.Dispatch | devplat-0.0.1/src/main/webapp/WEB-INF/js/jquery-1.8.0.js:2985-3080 | dispatch runs the due handlers in order up to the one that is cut off, none of them missing: first the delegated ones, from the target outward up to the delegating element, then the direct ones, on one element in the order of registration; a delegated one is due on an element that fits its selector and is not a disabled one under a click, and none under a click with a button; what is cut off is what follows a stopImmediatePropagation, or, on other elements, a stopPropagation or a false answer |
| Dispatch.DueKeysInOrder | devplat-0.0.1/src/main/webapp/WEB-INF/js/jquery-1.8.0.js:3009-3037 | for every event the due runs have an order as described, each of them in it once |
| Dispatch.RunQueue | devplat-0.0.1/src/main/webapp/WEB-INF/js/jquery-1.8.0.js:3044-3074 | a run takes place unless an earlier one stopped everything, or one on an inner element stopped the propagation or returned false; the default is prevented iff some run returned false or called preventDefault |
| Dispatch.DelegatedQueue | devplat-0.0.1/src/main/webapp/WEB-INF/js/jquery-1.8.0.js:3009-3037 | the walk from the target to the delegating element, with disabled elements skipped on clicks |
| Dispatch.MatchesAt | devplat-0.0.1/src/main/webapp/WEB-INF/js/jquery-1.8.0.js:3017-3029 | matching with remembered selector results is matching each handler |
| Dispatch.CutIsUnique | devplat-0.0.1/src/main/webapp/WEB-INF/js/jquery-1.8.0.js:3044-3074 | there is one cut |
| DataCache.RunIsValid | devplat-0.0.1/src/main/webapp/WEB-INF/js/jquery-1.8.0.js:1537-1709 | in every reachable state ids on elements are distinct, disjoint from deletedIds, deletedIds has no repeats, and the ids in use are exactly 1 to uuid |
| DataCache.ApplyKeeps | devplat-0.0.1/src/main/webapp/WEB-INF/js/jquery-1.8.0.js:1537-1709 | every operation keeps that invariant and leaves all other elements as they were |
| DataCache.ElementsAreIsolated | devplat-0.0.1/src/main/webapp/WEB-INF/js/jquery-1.8.0.js:1537-1709 | what is stored for an element after any run is what the operations on that element alone would have stored |
| DataCache.RecycledIdStartsEmpty | devplat-0.0.1/src/main/webapp/WEB-INF/js/jquery-1.8.0.js:1568-1579 | an element that gets an id, new or recycled, starts with an empty entry |
| DataCache.IdsAreReused | devplat-0.0.1/src/main/webapp/WEB-INF/js/jquery-1.8.0.js:1568-1579 | in every run ids given back are used again before a new one is made: the largest id ever given is the largest number of elements with data at one time |
| DataCache.NothingHappens | devplat-0.0.1/src/main/webapp/WEB-INF/js/jquery-1.8.0.js:1537-1566 | on a node that takes no data, and when there is nothing to remove, nothing changes |
| DataCache.ReadsBackIff | devplat-0.0.1/src/main/webapp/WEB-INF/js/jquery-1.8.0.js:1600-1629 | a written value reads back if and only if no other value is stored under the name as it was given, before camelCasing |
| DataCache.RemovedReadsNothingIff | devplat-0.0.1/src/main/webapp/WEB-INF/js/jquery-1.8.0.js:1648-1686 | after removing a name nothing reads under it, unless it was stored both as given and camelCased |
| DataCache.DestroyedIffEmpty | devplat-0.0.1/src/main/webapp/WEB-INF/js/jquery-1.8.0.js:1683-1709 | after removing a name the entry is gone, and the id given back, exactly when no data of either kind, no event and no handle is left |
| DataCache.RemoveKeepsOthers | devplat-0.0.1/src/main/webapp/WEB-INF/js/jquery-1.8.0.js:1648-1686 | removing a name takes away exactly the key spelled like it, if there is one, else exactly its camelCase form, if that is one, else the words of that form; every other key, the other kind of data, the events and the handle stay |
| DataCache.RemoveAll | devplat-0.0.1/src/main/webapp/WEB-INF/js/jquery-1.8.0.js:1683-1709 | removing all data of an element leaves its private data, events and handle; removing all private data destroys the entry |
| DataCache.WriteKeepsOthers | devplat-0.0.1/src/main/webapp/WEB-INF/js/jquery-1.8.0.js:1595-1609 | writing a name stores the value under its camelCase form and leaves every other key as it was |
| DataCache.MergeKeepsOthers | devplat-0.0.1/src/main/webapp/WEB-INF/js/jquery-1.8.0.js:1584-1592 | an object sets its keys, as they are, and no others |
| DataCache.ListenKeepsOthers | devplat-0.0.1/src/main/webapp/WEB-INF/js/jquery-1.8.0.js:2662-2744 | adding a handler changes nothing of the data, and of the events only those of its type |
| DataCache.UnlistenKeepsOthers | devplat-0.0.1/src/main/webapp/WEB-INF/js/jquery-1.8.0.js:2753-2826 | removing the handlers of a type takes those registered under exactly that type; other types and all data stay, and when no type is left the event data and the handle go, and the entry too if nothing else is stored |
| DataCache.CleanFrees | devplat-0.0.1/src/main/webapp/WEB-INF/js/jquery-1.8.0.js:6212-6256 | cleaning an element leaves nothing stored and gives its id back |
| DataCache.EmptyNameIsWhole | devplat-0.0.1/src/main/webapp/WEB-INF/js/jquery-1.8.0.js:1648-1706 | removing an empty name is removing everything |
| DataCache.MergedKeyHidesWrite | devplat-0.0.1/src/main/webapp/WEB-INF/js/jquery-1.8.0.js:1590-1621 | a key merged from an object can hide a later write under the same name |
| DataClass.DataStore.CleanOne | devplat-0.0.1/src/main/webapp/WEB-INF/js/jquery-1.8.0.js:6212-6256 | cleanData on one element, through event.remove, removeData and cleanData again: the id is given back exactly once |
| DataClass.DataStore.EventRemove | devplat-0.0.1/src/main/webapp/WEB-INF/js/jquery-1.8.0.js:2753-2826 | event.remove seen from the store, with the removal of the event data when the last handler goes |
| DataClass.DataStore.RemoveData | devplat-0.0.1/src/main/webapp/WEB-INF/js/jquery-1.8.0.js:1631-1709 | removeData destroys the entry exactly when nothing is left in it |
| DataClass.DataStore.Data | devplat-0.0.1/src/main/webapp/WEB-INF/js/jquery-1.8.0.js:1537-1629 | data writes and reads one element |
| DataClass.DataStore.DataObject | devplat-0.0.1/src/main/webapp/WEB-INF/js/jquery-1.8.0.js:1584-1627 | data with an object copies its keys as they are over the stored ones |
| DataClass.DataStore.CleanData | devplat-0.0.1/src/main/webapp/WEB-INF/js/jquery-1.8.0.js:6212-6256 | cleanData on a list of elements |
| FxQueue.RunInOrder | devplat-0.0.1/src/main/webapp/WEB-INF/js/jquery-1.8.0.js:1867-1909 | over any run, functions start once and call next once, in the order of queueing, and the empty hook takes effect once per busy period |
| FxQueue.LogAlternates | devplat-0.0.1/src/main/webapp/WEB-INF/js/jquery-1.8.0.js:1867-1909 | a call of next is followed at once by the next start, or by the empty hook if nothing is pending; at most one function is in progress |
| FxQueue.RunElement | devplat-0.0.1/src/main/webapp/WEB-INF/js/jquery-1.8.0.js:1867-1937 | any queueing and calling of next on a new element, with calls returning at any moments in between: starts and nexts in the order of queueing, one hook per busy period, nothing between a next and what it leads to |
| FxQueue.Element.Queue | devplat-0.0.1/src/main/webapp/WEB-INF/js/jquery-1.8.0.js:1912-1937 | queueing on the element, from wherever: while a function is in progress the stored queue is the sentinel and the pending functions |
| FxQueue.Element.Next | devplat-0.0.1/src/main/webapp/WEB-INF/js/jquery-1.8.0.js:1867-1897 | next, called synchronously or later, from wherever |
| FxQueue.Element.Dequeue | devplat-0.0.1/src/main/webapp/WEB-INF/js/jquery-1.8.0.js:1867-1897 | dequeue up to the call of the function or the callbacks of the empty hook |
| FxQueue.Element.Return | devplat-0.0.1/src/main/webapp/WEB-INF/js/jquery-1.8.0.js:1892-1896 | the rest of dequeue after its function returned, on an array that may be out of use, has no further effect |
| UploadBatch.LoggedPlusLeft | devplat-0.0.1/src/main/webapp/WEB-INF/js/fileinput.js:1456-1489 | answers logged and files left add up to uploadAsyncCount exactly as long as only files were answered |
| UploadBatch.CompleteAtLastAnswer | devplat-0.0.1/src/main/webapp/WEB-INF/js/fileinput.js:1456-1489 | without null entries the batch is complete exactly when every request has been answered |
| UploadBatch.ScheduledAfterLastAnswer | devplat-0.0.1/src/main/webapp/WEB-INF/js/fileinput.js:1490-1516 | in any interleaving the finaliser is scheduled once for every completion after the last answer |
| UploadBatch.FinaliserOnceIff | devplat-0.0.1/src/main/webapp/WEB-INF/js/fileinput.js:1483-1590 | when each completion directly follows its answer, the finaliser is scheduled exactly once if and only if no entry is null |
| UploadBatch.NullEntryMiscounts | devplat-0.0.1/src/main/webapp/WEB-INF/js/fileinput.js:1456-1489 | a file and a null entry: the finaliser is scheduled twice if the file is answered first, and never if it is answered last |
| UploadBatch.AlwaysBalanced | devplat-0.0.1/src/main/webapp/WEB-INF/js/fileinput.js:1456-1489 | after any timers: files left and answers to files balance, and the batch is complete exactly if the first answers were those to the files |
| UploadBatch.Uploader.Upload | devplat-0.0.1/src/main/webapp/WEB-INF/js/fileinput.js:1762-1789 | the submission: every entry but the undefined ones, although only files are counted |
| UploadBatch.Uploader.Answered | devplat-0.0.1/src/main/webapp/WEB-INF/js/fileinput.js:1483-1489 | updateUploadLog on the object |
| UploadBatch.Uploader.Completed | devplat-0.0.1/src/main/webapp/WEB-INF/js/fileinput.js:1490-1516 | the completion of a request: the finaliser is scheduled if the batch is complete |
| UploadBatch.Uploader.CheckAsyncComplete | devplat-0.0.1/src/main/webapp/WEB-INF/js/fileinput.js:1456-1467 | the loop of checkAsyncComplete |
| UploadBatch.Uploader.FileCount | devplat-0.0.1/src/main/webapp/WEB-INF/js/fileinput.js:2286-2292 | getFileStack().length counts the entries that are neither undefined nor null |
| CreditCard.CheckCard | devplat-0.0.1/src/main/webapp/WEB-INF/js/jquery-validationEngine.js:1322-1339 | accepted exactly if, without spaces and dashes, there are 14 to 16 digits, not all 0, that satisfy the Luhn formula |
| CreditCard.ConcatenationIsLuhn | devplat-0.0.1/src/main/webapp/WEB-INF/js/jquery-validationEngine.js:1329-1336 | the digit-string computation is the Luhn formula for any length, and not-a-number if any other character occurs |
| CreditCard.Checksum | devplat-0.0.1/src/main/webapp/WEB-INF/js/jquery-validationEngine.js:1329-1336 | the two loops |
| CreditCard.SingleDigitError | devplat-0.0.1/src/main/webapp/WEB-INF/js/jquery-validationEngine.js:1329-1337 | changing one digit of a valid number makes it invalid |
| CreditCard.AdjacentSwapIff | devplat-0.0.1/src/main/webapp/WEB-INF/js/jquery-validationEngine.js:1329-1337 | swapping neighbouring digits goes unnoticed if and only if they are equal or are 0 and 9 |
| CreditCard.UniqueCheckDigit | devplat-0.0.1/src/main/webapp/WEB-INF/js/jquery-validationEngine.js:1329-1337 | every prefix has exactly one check digit |
| CreditCard.ValidPairs | devplat-0.0.1/src/main/webapp/WEB-INF/js/jquery-validationEngine.js:1329-1337 | the valid numbers of two digits: doubling starts at the second digit from the right |
| CreditCard.StrippedParts | devplat-0.0.1/src/main/webapp/WEB-INF/js/jquery-validationEngine.js:1322-1322 | spaces and dashes are removed wherever they are, and nothing else changes |
| Watermark.Settings.Layout | devplat-0.0.1/src/main/webapp/WEB-INF/js/watermark.js:43-102 | the settings after recomputation, and all marks: on the page and pairwise disjoint unless a count was cut down to one |
| Watermark.CountIsLargest | devplat-0.0.1/src/main/webapp/WEB-INF/js/watermark.js:43-58 | the recomputed count is the largest that fits at the configured gap |
| Watermark.GapFillsPage | devplat-0.0.1/src/main/webapp/WEB-INF/js/watermark.js:53-58 | with room for two marks the gap does not shrink and what is left over is below one pixel per gap |
| Watermark.PlacedIffNotSingle | devplat-0.0.1/src/main/webapp/WEB-INF/js/watermark.js:43-77 | marks are placed well if and only if the recomputation did not leave a single one, for which the gap is a division by zero |
| Watermark.AdjustedOutright | devplat-0.0.1/src/main/webapp/WEB-INF/js/watermark.js:43-58 | marks that are placed well as configured stay as they are; otherwise there are as many as can be placed well with the configured gap, none if not one can, and two or more get the widest gap with which they still can |
| Watermark.GridIsComplete | devplat-0.0.1/src/main/webapp/WEB-INF/js/watermark.js:83-102 | there is a mark at every crossing, row by row, and no other |
| Watermark.SingleMarkIsLost | devplat-0.0.1/src/main/webapp/WEB-INF/js/watermark.js:43-77 | two marks of 60 with a gap of 10 on a page of 100: one mark is left and its gap is not a number |
| Watermark.MarksOnPage | devplat-0.0.1/src/main/webapp/WEB-INF/js/watermark.js:83-102 | marks placed well in both directions are on the page and do not overlap |
| Watermark.Settings.Place | devplat-0.0.1/src/main/webapp/WEB-INF/js/watermark.js:83-102 | the nested loops |

## Left out

- WhenOutcome.FirstRejectionWins: speaks only of a rest at which one promise is rejected; the conditions for all rejections, those made within one another included, are in RejectionOrder.
- RejectionOrder.FirstWinsIffUnheard, RejectionOrder.FirstWinsIffReady and RejectionOrder.SomeListenerOvertakes: the pending promises among the arguments belong to Deferreds that client code settles itself. For pending promises made by `then` or `when` the half in FirstRejection.FirstInTimeWins holds as well; the other half is not claimed, since what a listener can do then depends on how the arguments are derived: for p and p.then() the derived promise listens on p and is pending, yet all it can bring to the master is the same rejection.
- ThenChains.ChainIsFold: stages whose progress handler answers with a promise are excluded, because the property is false of them.
- AjaxConvert.AjaxConvert: requires every registered converter to count as true, because the loop need not end otherwise; AjaxLimits has the exact condition.
- FxQueue.Element.Next: each function calls next at most once, as the queue expects; clearQueue, delay and other queues than fx are not modelled.
- `this` and argument lists: a callback gets one value; contexts and further arguments play no part in the control flow.
- Callbacks.empty, array and nested-array arguments of add, and exceptions thrown by client callbacks.
- ProgressOrder.NotificationsAreExact: a derived promise one of whose handlers returned a promise is excluded, because it then hears two sources interleaved; ProgressFlow.NotificationsOfThen covers it.
- The promise machine is a value with an explicit control stack rather than a heap of objects: callbacks of one Deferred call methods of others, so the stack of suspended loops has to be part of the state. The objects it is made of are also modelled as classes.
- The Sizzle tokenizer, positional selectors, nth-child, `:has`, `:not`, quick paths for id, tag and class, querySelectorAll, the cache of compiled selectors, and the shortcut of the comparator by sourceIndex or compareDocumentPosition.
- The native array sort is an insertion sort driven by the modelled comparator.
- Changes of the document during one pass of a selector.
- Special events: the mapping of event types, setup, teardown and handler hooks; trigger and the native default action; handlers that edit the lists while dispatch runs its precomputed queue.
- Namespaces that are empty or contain a line terminator, and requested ones with a character that is special in a regular expression (backslash, ^, $, |, ?, *, +, parentheses, brackets, braces): "a+b" does not find itself, and the RegExp constructor throws on "(".
- Data on plain objects rather than nodes, the "data" key used as an internal name, browsers that cannot delete expando properties, and teardown hooks that touch the store.
- Lowercasing of converter keys, dataFilter, and everything else of the ajax life cycle; keys are two words.
- Null entries of the file stack are taken to be accepted as form data together with a file name, as older browsers do, and answered without an error; the FormData of current browsers refuses them with an exception before the request is made.
- The order of timers in real time: they are a sequence, in any order that keeps each request answered once.
- parseInt in the credit card guard on strings that do not begin with a digit; such strings are rejected by the checksum in any case.
- Watermark: how settings override defaults, fractional sizes, and rotation.
- Page set-up, user interface, localisation and server code.
