# A verified model of the JSProCpp promise protocol

JSProCpp is a thread-safe C++ promise library. This project models, in Dafny, the concurrent
protocol at its centre and the objects built on it, and proves what they promise over whole
runs: any number of promises, awaiters, threads, tickets and generations, under any schedule.

`dafny verify dfyconfig.toml` checks everything.

## Structure

**One promise.** `Cells` holds the fields of a promise (`resolved_`, value, exception, whether
`handle_` is set, `awaiters_`, `use_count_`, `self_owned_`) and one function per `exchange` or
locked section. `CellProtocol` is the step machine over them: Resolve handles, the shared Reject
handle with its own flag, and the coroutine's end settle in two phases, so "claimed but not
stored" is a visible state; registration, un-registration, Race's shortcut, Detach and threads
blocked in `WaitDone`/`WaitAwaited` interleave freely. `PromiseCell` is the object with mutable
fields; each method is proved to be the protocol event it implements.

**Operators.** `Types` holds the result types and conversions. `Operators` gives Then, Catch and
Finally twice: as a small outcome semantics (`Apply`), and as the code does it, with one function
for the branch that finds its source settled and one for the closure that is registered, each
following the code's own tests: the exception first, void or value, a handler that returns or
throws, the rethrow into a typed catch clause, sync or promise-returning handlers, and the Resolve
or Reject handle it ends with. `BranchesAgree` proves that both branches mean `Apply`.

**Networks of promises.** `Graph` is a machine whose threads are stacks of atomic sections of
Then, Catch, Finally, Race and All, built on those branch functions; every rejection through a
handle passes that handle's once-flag first. Continuations run synchronously inside the settling
call, so they are pushed in front of what that call has left to do. `GraphSafety` and `GraphRuns`
carry the safety invariant through every section and call, `GraphProgress` the invariant that every
promise that is owed an outcome has a thread or an awaiter that will bring it, `GraphTermination` a
weight that every section lowers. `Continuations`, `Cascades`, `Calls`, `Races`,
`RaceCleanup`, `RaceWitness` and `Encodings` state the results.

**Clients.** `MutexProtocol`, `CvProtocol` and `GuardedWait` are step machines over promise cells.
The last one is a CVPromise wait that releases and re-takes a mutex: the Then on the captured
generation, the coroutine handler, the promise of its Lock and the returned promise are settled
section by section (`GuardedWaitSafety`, `GuardedWaitResults`). `Mutexes` and `CvPromises` are the
objects, carrying the protocol state as a ghost field. `StatePromises` is the StatePromise object
on top of the promise network.

## Model

| member | source | states |
|---|---|---|
| `Cells.WithoutSplits` | include/promise/details/Promise.inl:228-245 | `UnAwait(id)` removes exactly one entry, the callback registered under that id, keeps the order of the rest, and changes nothing when there is none |
| `Cells.WithoutOrdered` | include/promise/details/Promise.inl:228-245 | with increasing ids the named callback is gone afterwards and the ids still increase |
| `CellProtocol.StepInv` | include/promise/details/Handle.inl:106-140 | every exchange, store, final suspend, registration, un-registration, Race shortcut, Detach and sleep keeps delivery, accounting, election, flag, self-ownership and sleeper invariants |
| `CellProtocol.KeptWithout` | include/promise/details/Promise.inl:228-245 | dropping the live entry of a callback is the same as forgetting that registration in the history, for every history |
| `CellProtocol.DrainInv` | include/promise/details/Handle.inl:297-321 | whichever of the store and the coroutine's end comes second takes all awaiters for dispatch, in order, and signals; the first takes none |
| `CellProtocol.SettleOnce` | include/promise/details/Resolver.inl:85-180 | in every run at most one settling call returns true, the stored outcome is its argument, value and exception are never both set, a settled promise has such a call, and a call that lost found the promise claimed or was dropped by the Reject handle's flag while another rejection is on its way to the exchange |
| `CellProtocol.OutcomeIsFinal` | include/promise/details/Resolver.inl:85-180 | a stored outcome survives every continuation of the run |
| `CellProtocol.WinnerStoresItsArgument` | include/promise/details/Resolver.inl:85-180 | in every run after a call with a given argument, if that call returns true the promise is settled with that argument |
| `CellProtocol.NoLostWakeUp` | include/promise/details/Handle.inl:297-321 | settled with the handle cleared means no awaiter is left; every awaiter ever registered was dispatched or un-awaited, never both, and dispatch follows registration order without repetition |
| `CellProtocol.UseCountAccounts` | include/promise/details/Promise.inl:180-245 | `use_count_` is live plus dispatched plus un-awaited registrations plus Race shortcuts |
| `CellProtocol.UsesCounted` | include/promise/details/Promise.inl:180-219 | `use_count_` grows by one with each registration on a pending promise and each Race on a settled race promise, and with nothing else |
| `CellProtocol.NoMissedSignal` | include/promise/details/Handle.inl:221-244 | no step makes the predicate of a blocked `WaitDone` or `WaitAwaited` true without signalling it |
| `CellProtocol.WakesOnlyWhenTrue` | include/promise/details/Handle.inl:221-244 | a thread goes to sleep exactly if its predicate is false, nobody else starts to sleep, and a sleeper that leaves has found its predicate true |
| `CellProtocol.SleepsUntilTrue` | include/promise/details/Handle.inl:221-244 | over whole runs a thread that went to sleep still sleeps exactly as long as its predicate is false |
| `CellProtocol.AwakeIsStable` | include/promise/details/Handle.inl:221-244 | both wait predicates stay true once true |
| `CellProtocol.DetachBreaksCycle` | include/promise/details/Handle.inl:332-346 | a promise that owns itself has not been drained, and after the drain it never owns itself again |
| `CellProtocol.DetachTakes` | include/promise/details/Handle.inl:332-346 | Detach takes self-ownership exactly when the promise is pending |
| `CellProtocol.DetachLasts` | include/promise/details/Handle.inl:297-346 | once taken, self-ownership lasts exactly until the drain, whatever the interleaving |
| `PromiseCell.Promise.PassFlag` | src/Promise.cpp:50-56 | one call gets past the Reject handle's flag; it is the protocol's Flag event |
| `PromiseCell.Promise.Exchange` | include/promise/details/Resolver.inl:87-89 | the exchange elects the call; it is the protocol's Exchange event |
| `PromiseCell.Promise.Store` | include/promise/details/Resolver.inl:90-99 | the elected call finds neither value nor exception (both assertions), stores its argument, and takes the awaiters unless the coroutine is running |
| `PromiseCell.Promise.OnResolved` | include/promise/details/Handle.inl:297-308 | swaps the awaiters out and drops self-ownership exactly when the coroutine has ended |
| `PromiseCell.Promise.Dispatch` | include/promise/details/Handle.inl:310-320 | every taken awaiter is resumed or called once, in order, by its kind |
| `PromiseCell.Promise.FinalSuspend` | include/promise/details/Handle.inl:107-117 | clears the handle and takes the awaiters exactly when the promise is settled |
| `PromiseCell.Promise.AwaitSuspend` | include/promise/details/Promise.inl:90-104 | false means settled and nothing registered, true means registered at the end of the list |
| `PromiseCell.Promise.Await` | include/promise/details/Promise.inl:203-219 | the new id is larger than that of every awaiter ever registered |
| `PromiseCell.Promise.Find` | include/promise/details/Promise.inl:230-235 | the loop finds the callback with that id if there is one, and the list without that position is the list after un-registration |
| `PromiseCell.Promise.UnAwait` | include/promise/details/Promise.inl:228-245 | true exactly when the callback was live; then its id counts as un-awaited from now on and did not before |
| `PromiseCell.Promise.CountUse` | include/promise/details/Promise.inl:906-915 | Race on a settled race promise counts a use and registers nothing |
| `PromiseCell.Promise.Detach` | include/promise/details/Handle.inl:332-346 | self-ownership is taken only while the promise is pending |
| `PromiseCell.Promise.Settle` | include/promise/details/Resolver.inl:85-180 | a whole settling call wins exactly when the promise was unclaimed and, on the Reject handle, the flag unset; a losing call changes nothing of the promise; a winning one stores its argument and, unless the coroutine is running, dispatches exactly the registered awaiters, each once, by kind and in order |
| `Operators.ThenMeans` | include/promise/details/Promise.inl:284-451 | both branches of Then, for void and value sources and handlers, sync and promise-returning, give the derived promise the outcome of the semantics |
| `Operators.CatchMeans` | include/promise/details/Promise.inl:493-686 | both branches of Catch do so too: the rethrow into a typed clause, a handler that returns or throws, apply_value, apply_exception and resolve_wrapper with their conversions into the result type |
| `Operators.FinallyMeans` | include/promise/details/Promise.inl:727-861 | both branches of Finally pass the source's outcome on unless the cleanup throws |
| `Operators.BranchesAgree` | include/promise/details/Promise.inl:284-861 | for every operator, handler, type and settled source the branch for a settled source and the registered closure mean the same, and it is the semantics |
| `Types.CatchConversions` | include/promise/core/concepts.inl:503-517 | what Catch hands to its Resolve handle converts, in all combinations of void, equal and different types, to the value that stands for recovered or passed-through |
| `GraphSafety.PerformOk` | include/promise/details/Promise.inl:284-451 | every atomic section of Then, Catch, Finally, Race, All, of passing the Reject flag and of settling keeps the network invariant and only adds to what is settled |
| `GraphSafety.ResumeUserOk` | include/promise/details/Promise.inl:293-450 | running either branch stores nothing but what the semantics allows |
| `GraphSafety.LayerOutcome` | include/promise/details/Promise.inl:949-955 | a settled Finally layer of a race has the outcome of the shared race promise |
| `GraphRuns.NextOk` | include/promise/details/Resolver.inl:85-180 | every call, through a Resolve handle, through a Reject handle with its flag or at a coroutine's end, and every section of every thread keeps the system invariant; no two threads are about to store into one promise |
| `GraphProgress.Handover` | include/promise/details/Promise.inl:402-450 | a section that carries the duty to settle a promise discharges it or hands it to a later section or a registered awaiter, unless a rejection of that promise is already past the flag |
| `GraphProgress.FlaggedDuty` | src/Promise.cpp:50-56 | a rejection dropped at the flag is harmless: while the promise is unclaimed the exchange of the call that passed the flag is queued |
| `GraphProgress.NextProgress` | include/promise/details/Handle.inl:297-321 | no call and no section ever loses a duty to settle |
| `GraphTermination.ExecWeight` | include/promise/details/Handle.inl:310-320 | every section lowers the total weight of pending sections and awaiters |
| `Continuations.ThenOutcome` | include/promise/details/Promise.inl:284-451 | in every run a settled Then rejects with its source's own exception, or resolves with what the handler returned for the source's value, or rejects with what the handler threw |
| `Continuations.CatchOutcome` | include/promise/details/Promise.inl:493-686 | in every run a settled Catch passes a resolved source's value on, packed, passes an exception of another type on unchanged, and otherwise has the handler's value, packed, or the handler's exception |
| `Continuations.FinallyOutcome` | include/promise/details/Promise.inl:727-861 | in every run a settled Finally has the exception of a cleanup that threw, and otherwise its source's outcome |
| `Continuations.OutcomeIsFold` | include/promise/details/Promise.inl:284-451 | a settled derived promise, made by whichever branches of the code, has the outcome semantics folded along its path from a settled root |
| `Continuations.TimingIndependence` | include/promise/details/Promise.inl:493-686 | in any two runs, promises derived by the same operators, up to sync or promise-returning handlers, from roots that settled alike settle alike: the done branch and the awaiter branch agree |
| `Continuations.FoldIgnoresTiming` | include/promise/details/Promise.inl:727-861 | the folded outcome does not depend on which handlers are promise-returning |
| `Continuations.OutcomeStays` | include/promise/details/Resolver.inl:85-180 | in every continuation of a network run a settled promise keeps its outcome |
| `Continuations.SchedulesAreBounded` | include/promise/details/Handle.inl:310-320 | without new calls no schedule is longer than the weight of the work at hand |
| `Continuations.RunToRest` | include/promise/details/Handle.inl:310-320 | any scheduler drains all threads and ends in a reachable state with nothing left to run |
| `Continuations.CascadeIsComplete` | include/promise/details/Promise.inl:815-857 | at rest every descendant of a finished root, at any depth, is settled and drained with its folded outcome |
| `Continuations.RunsLeaveAlone` | include/promise/details/Promise.inl:629-682 | no cascade settles a promise of the user that nobody called |
| `Continuations.SettleAndCascade` | include/promise/details/Handle.inl:297-321 | settling a coroutine-free root, whatever other threads are doing: the call wins exactly when the promise was unclaimed and, for a rejection, the flag free; everything comes to rest; then the root has the winning outcome, every descendant its folded one, and user promises nobody was about to settle are unchanged |
| `Cascades.PerformIn` | include/promise/details/Promise.inl:402-450 | sections of synchronous steps start no coroutine, and what they leave behind stays with the promises the call can reach |
| `Cascades.CallUntilReturn` | include/promise/details/Handle.inl:297-321 | if what is registered on the promises the call can reach is synchronous, a settling call runs only sections of its own thread, returns, and on return every descendant is settled with its folded outcome; a losing call changes no promise |
| `Continuations.AllOutcome` | include/promise/details/helpers.inl:131-159 | a settled container All is resolved if and only if every input is, result i being input i's value; a rejection is that of the lowest-index rejected input, whatever the settlement order |
| `Continuations.AllSettles` | include/promise/details/helpers.inl:131-159 | at rest All is settled once all its inputs are finished |
| `Calls.AllOfContainer` | include/promise/details/helpers.inl:131-159 | in every run after All was called on a container, its promise, when settled, holds the values of that container's promises in order or the exception of the first rejected one, and at rest it is settled once they are finished |
| `Calls.ChainOfOperators` | include/promise/details/Promise.inl:284-451 | when a chain of operators has been attached, under any interference, each operator's promise is a new one derived from the promise of the operator before it; at rest, with the source finished, the last one is settled with the operators folded in order |
| `Calls.EndCoroutine` | include/promise/details/Handle.inl:107-137 | a coroutine's own result is stored exactly if nobody had claimed the promise, its handle is cleared in any case, and ending without a result claims nothing |
| `Calls.EndAndCascade` | include/promise/details/Handle.inl:106-140 | at rest after a coroutine's end the promise is drained with the coroutine's result if that came first and else with the claimer's, and every descendant has its folded outcome; without a result and a claimer it is still pending |
| `Calls.ClaimedIsDecided` | include/promise/details/Resolver.inl:87-99 | a claimed promise is settled or a thread is about to store its outcome |
| `Calls.NewPromiseIsPending` | include/promise/details/Promise.inl:993-1014 | a promise just created stays pending, and its coroutine running or not, as long as nobody calls it |
| `Races.RaceOutcome` | include/promise/details/helpers.inl:281-286 | whichever promise of the fold settles, it does as some settled participant: rejected with its exception, or resolved with its value converted |
| `Calls.RaceUsesParticipants` | include/promise/details/Promise.inl:901-956 | when Race has returned, under any interference, each participant is settled or its use count has grown, also those skipped because the race was decided |
| `Races.ClaimDecides` | include/promise/details/Promise.inl:918-935 | after a thread won the exchange on the shared promise nothing but its outcome is ever stored |
| `Races.FirstExchangeDecides` | include/promise/details/Promise.inl:901-956 | the first participant to win the shared resolver decides every promise of the race in every continuation, also while the fold is still being built |
| `Races.LeftmostSettledWins` | include/promise/details/helpers.inl:281-286 | under any interference: if participant j is settled when the race starts, the race is decided by j or a participant to its left, unless j and one to its left are both rejected |
| `Races.PerformEarly` | include/promise/details/Promise.inl:901-956 | until the fold looks at participant j, every section that has to do with the race speaks for participants left of j |
| `RaceWitness.ThirdBeatsSecond` | src/Promise.cpp:50-56 | the exception is real: a run in which the first participant's rejection is past the shared flag, the flag drops the rejected second one, and the third one wins |
| `Races.RunsKeepTip` | include/promise/details/helpers.inl:283-284 | the promise the fold has reached always belongs to that race |
| `RaceCleanup.RunClean` | include/promise/details/Promise.inl:942-954 | in every run each race awaiter on a participant has a Finally layer that will take it off, or the fold is about to add it; one thread builds each race |
| `RaceCleanup.SettledRaceLeavesNoAwaiter` | include/promise/details/Promise.inl:942-954 | when the promise Race returned is settled, no promise holds an awaiter registered by that race |
| `Encodings.UniqueVariantIsFirsts` | include/promise/details/helpers.inl:201-243 | `unique_variant` is exactly the non-void input types, each once, in order of first occurrence |
| `Encodings.ConvertPacks` | include/promise/details/Promise.inl:917-935 | Race's implicit conversion marks a value with its type unless there is only one, and with its presence if another participant is void |
| `Encodings.RaceInjectTyped` | include/promise/details/helpers.inl:255-279 | Race's result type can represent the value of every participant |
| `Encodings.RaceInjectTells` | include/promise/details/Promise.inl:917-935 | equal Race results come from participants of the same type with the same value |
| `Encodings.RaceResultTells` | include/promise/details/Promise.inl:917-935 | in every run the value a race resolved with has the race's type and shows the type and value of the participant that decided it |
| `Types.CatchTyped` | include/promise/core/concepts.inl:503-517 | recovered and passed-through values both fit Catch's result type |
| `Types.CatchSeparates` | include/promise/details/Promise.inl:511-590 | Catch's packing is injective on each side, and separates recovered from passed-through exactly when the types differ |
| `Encodings.CatchResultTells` | include/promise/details/Promise.inl:511-590 | in every run, if the types differ, the value a Catch promise resolved with shows whether its source had resolved |
| `MutexProtocol.StepInv` | src/Mutex.cpp:48-78 | every section of Lock and UnLock keeps the chain, token and ticket-count invariants |
| `MutexProtocol.MutualExclusion` | src/Mutex.cpp:48-78 | two grants never overlap, the holder is the ticket in `resolve_`, `assert(!resolve_)` cannot fail, and UnLock's resolve always wins |
| `MutexProtocol.GrantIsNext` | src/Mutex.cpp:60-62 | the ticket about to be granted is the next in line and the mutex is free |
| `MutexProtocol.ResolvedPrefix` | src/Mutex.cpp:53-58 | resolved tickets are a prefix of the chain |
| `MutexProtocol.GrantsAreFifo` | src/Mutex.cpp:53-56 | the n-th grant and the n-th release belong to the n-th tail swap |
| `MutexProtocol.NeverStuck` | src/Mutex.cpp:48-78 | with a ticket outstanding, no holder and no UnLock in flight, the head ticket's predecessor is resolved and a thread is on its way to grant it |
| `MutexProtocol.RunWeight` | src/Mutex.cpp:48-78 | every section lowers a weight, so without new calls every schedule ends |
| `MutexProtocol.AtRestHeldOrServed` | src/Mutex.cpp:48-78 | at rest either somebody holds the mutex or every ticket has been served |
| `Mutexes.Mutex.Lock` | src/Mutex.cpp:47-64 | a whole call draws the next ticket; it is granted at once exactly when the mutex was free, otherwise the holder keeps it |
| `Mutexes.Mutex.UnLock` | src/Mutex.cpp:69-78 | a whole call hands the mutex to the next ticket if there is one, and frees it otherwise |
| `Mutexes.Mutex.OwnsLock` | src/Mutex.cpp:83-87 | true exactly when some granted ticket is not released |
| `Mutexes.LockGuard.Lock` | src/Mutex.cpp:185-191 | the guard is queued or holding afterwards, holding exactly when the mutex was free |
| `Mutexes.LockGuard.Unlock` | src/Mutex.cpp:164-170 | releases exactly this guard's ticket and the next ticket gets the mutex |
| `Mutexes.LockGuard.Move` | src/Mutex.cpp:119-124 | ownership moves to the new guard unchanged and the old one is empty |
| `Mutexes.LockGuard.MoveAssign` | src/Mutex.cpp:135-151 | gives back the ticket this guard held, nothing else, and takes over the other guard; self-assignment changes nothing |
| `Mutexes.LockGuard.Destroy` | src/Mutex.cpp:152-158 | releases the guard's ticket exactly when it owns one |
| `CvProtocol.StepInv` | src/CVPromise.cpp:115-149 | every swap, every phase of settling the old promise and every registration keeps: generations are taken out one by one and each is exactly as far as its own call |
| `CvProtocol.CurrentIsPending` | src/CVPromise.cpp:115-149 | while the object lives its current promise is unclaimed and pending, every settling call wins, and `assert(old_promise.Done())` holds |
| `CvProtocol.HandleIsSettledByNextSwap` | include/promise/CVPromise.h:129-149 | a handle taken since the previous swap is settled by the next Notify, Reject or destruction with that call's outcome, and by no other, in every continuation |
| `CvProtocol.HandlePendingUntilSwap` | src/CVPromise.cpp:82-85 | until that swap the handle is the current promise and pending |
| `CvPromises.CVPromise.Notify` | src/CVPromise.cpp:115-135 | the promise current at the call is resolved, a fresh pending one replaces it, no other promise changes |
| `CvPromises.CVPromise.Reject` | include/promise/CVPromise.h:129-149 | the same swap, rejecting the old promise |
| `CvPromises.CVPromise.Destroy` | src/CVPromise.cpp:56-66 | rejects the current promise with End; every promise the object had is settled or its own call is about to settle it |
| `CvPromises.CVPromise.Wait` | src/CVPromise.cpp:81-85 | returns the current promise, which is pending |
| `CvPromises.CVPromise.Resolved` | src/CVPromise.cpp:138-142 | reads false while the object lives |
| `CvPromises.CVPromise.Rejected` | src/CVPromise.cpp:145-149 | reads false while the object lives |
| `GuardedWaitSafety.StepInv` | src/CVPromise.cpp:92-101 | the mutex, the generations and all guarded waits, with the promises of their second Lock, of their handler and of the derived promise, stay consistent under every interleaving of their sections |
| `GuardedWaitSafety.StrandStep` | include/promise/details/Resolver.inl:85-180 | exchange, store and final suspend keep a promise's fields in step with its settling, and its awaiter is dispatched by the section that drains it |
| `GuardedWaitResults.ResolvesHoldingTheMutex` | src/CVPromise.cpp:92-101 | at the step that resolves the promise Wait(lock) returned, whatever else is going on, resolve_ is the ticket the guard drew for its second Lock, a later one than it gave up, and the captured generation had resolved |
| `GuardedWaitResults.HoldsUntilReturned` | src/CVPromise.cpp:100 | from the grant of the second Lock until the returned promise is settled the mutex is this guard's |
| `GuardedWaitResults.RejectionLeavesUnlocked` | src/CVPromise.cpp:92-101 | the returned promise rejects only as the captured generation did; then the guard does not own the lock and has drawn no ticket |
| `GuardedWaitResults.RestingWait` | src/CVPromise.cpp:92-101 | no wait is forgotten: at rest it is registered only on a pending generation, rejected after a rejected one, and after a resolved one its guard has a ticket and the wait is over exactly if the ticket was granted |
| `GuardedWaitResults.NotifyAfterReleaseIsSeen` | src/CVPromise.cpp:93-100 | the generation is captured before the mutex is released, so the first swap after the capture takes out that generation and settles it; at rest the wait has moved on: rejected with that call's error, or with its second ticket drawn |
| `StatePromises.StatePromise.Ready` | src/StatePromise.cpp:127-134 | every pending WaitWithReject resolves, settled ones keep their outcome |
| `StatePromises.StatePromise.Done` | src/StatePromise.cpp:137-149 | every pending WaitWithReject rejects with End, settled ones keep their outcome; ready and done both hold after it |
| `StatePromises.StatePromise.IsDone` | src/StatePromise.cpp:155-158 | equals done alone, because done implies ready between calls |
| `StatePromises.StatePromise.Reset` | src/StatePromise.cpp:161-171 | reaches the initial state and replaces only resolved promises, so no pending wait is orphaned |
| `StatePromises.StatePromise.WaitWithReject` | src/StatePromise.cpp:109-121 | the race is pending exactly while neither promise is settled; taken after Done it rejects with End, taken between Ready and Done it resolves |
| `StatePromises.StatePromise.Destroy` | src/StatePromise.cpp:70-76 | every pending WaitWithReject resolves, the opposite of Done |
| `StatePromises.DestroyAgainstDone` | src/StatePromise.cpp:70-76 | of two equal objects one is destroyed and Done is called on the other: every wait is settled on both, and they agree on all waits if and only if no wait was pending before |
| `StatePromises.PendingWaits` | src/StatePromise.cpp:107-121 | no wait is pending once the object is ready; if a wait was taken on the current promises, no wait is pending exactly when it is ready |
| `StatePromises.DestroyIsNotDone` | src/StatePromise.cpp:70-76 | the smallest case: one pending wait resolves on destruction and rejects with End on Done |
| `StatePromises.WaitDecided` | src/StatePromise.cpp:109-121 | at rest, with exactly one of the two promises settled, the race has the outcome that promise gives it |

## Where code and documentation differ

- The StatePromise header and the repository's README say destruction calls `Done()`. The
  destructor resolves ready before done, the opposite order, so a pending `WaitWithReject`
  resolves instead of rejecting with End. The model follows the code. `DestroyAgainstDone` proves
  that destruction and `Done()` agree on all waits if and only if none is pending when they are
  called; `PendingWaits` says when that is: always once ready is settled, and also before as long
  as no wait was taken on the current promises.
- The repository's README says a race has the result of whichever promise completes first. For
  promises that are settled before the race starts, `LeftmostSettledWins` says what the code
  guarantees, and `RaceWitness` shows the one way around it: the shared Reject handle's flag can
  drop the rejection of a participant that was settled first.
- The repository's README says StatePromise combines two CVPromise objects; the code uses plain
  promises, and so does the model.

## Modelling decisions

- Atomics are sequentially consistent and each locked section is one step.
- Handlers are functions to outcomes. A promise-returning handler is a fresh coroutine promise
  that settles with that outcome at some later step. `Finally` handlers take no argument.
- Exceptions are never null.
- Coroutine awaiters carry the `use_count_` value as a serial number; the code stores it for
  callbacks only, and `UnAwait` looks at callbacks only.
- In the Mutex, CVPromise and StatePromise objects each call runs to rest before the next; the
  interleavings are in the protocol modules. In StatePromise this excludes reentrant calls.
- LockGuard's `own_lock_` is set when Lock is called. Unlock, destruction and move-assignment over
  an owning guard require that its ticket has been granted, and nobody unlocks a guard while a
  `CVPromise::Wait` is using it.
- In a guarded wait the sections that the code runs one after the other in one thread may also be
  interleaved with each other; the results hold for these runs too.
- The handler of a void promise gets no value and a void handler's result is no value; in the model
  both are `Void`.

## Left out

- Object lifetime: promise cells are never freed; nothing is claimed about destruction timing.
- Weak memory orders.
- Which lock is held while a handler runs: the paths for a settled void source call out under the shared lock, and no claim is made about callbacks and locks.
- `await_ready` in container All: it and `await_suspend` are one step in the network, since a promise that settles between them only moves All to the branch it would have taken anyway.
- `Detach` in the network: self-ownership is modelled for one promise only, because no continuation reads it.
- The extra coroutine around a promise-returning Catch handler with a typed exception: it only awaits the handler's promise and returns or throws what that does.
- Container All over void promises returns a vector of void values in the model.
- Variadic All: the order in which its arguments are awaited is unspecified.
- The once-flag of the Reject handle of the promise a guarded wait returns: it is called once per wait, so the flag never drops a call.
- StatePromise::Wait, WaitReady, WaitDone: `Wait` is the race of WaitWithReject without the rejecting Then, and the other two return the promises themselves.
- Implicit conversions between different value types when a value is packed into a variant.
- `Resolve<T>::operator bool`, `Reject::operator bool` and the accessors.
- Pool, MessageQueue and MessageQueueProxy: wrappers over a thread pool that is not part of this model.
- Memory checking, type-erased plumbing and explicit instantiations.
