# Asynchronous operations of the Service Fabric C++ support libraries

A Dafny model, with proofs, of the asynchronous-operation runtime in
`libs/fabric_common` and of the smaller, mutex-based one in `libs/fabric_ext2`.
Everything below is a statement about every run, every schedule and every number
of threads, unless it says otherwise.

The project is built in layers.

* `LifecycleWord`, `InterleavedWord`, `OperationState`, `EndProtocol`: the 32-bit
  word in `AsyncOperationState`, with the masks as bit-vectors. `InterleavedWord`
  runs the load, test and compare-and-swap steps of any number of threads, weak
  failures included, and relates them to an atomic object by forward simulation.
  `OperationState` has the same loops as methods of a class under interference.
  `EndProtocol` adds the clients that must agree on who calls `End`.
* `OperationRaces`, `OperationRequests`, `OperationAlone`, `TreeRaces`: `AsyncOperation` under
  many threads. The first is a step machine of one operation, statement by statement, in
  which completions, cancels, attaches and detaches race for the word and the child lock.
  `OperationRequests` follows errors and children back to the calls that brought them, and
  `OperationAlone` says what each call comes to that nobody races with. `TreeRaces` puts any number
  of these machines together to a tree, in which a recursive cancel waits for the calls it
  makes on the children while other threads work anywhere else.
* `CancelTree`, `CancelEffects`, `CancelReach`, `CancelPlain`, `CancelOrder`, `CancelFamilies`:
  `AsyncOperation` under one thread with re-entrant hooks. `CancelTree` is a forest of
  operations on the heap, with user hooks that call back into it; each method is proved to
  compute a function on forests. `CancelEffects` proves what such a call leaves behind
  whatever the hooks do, `CancelHooks` that the hooks run and in which order, `CancelReach` how far a recursive cancel reaches and when it misses
  a child, `CancelOrder` that for one callback the order of the branches decides it exactly
  (`CancelPlain` has what operations without hooks come down to), and `CancelFamilies` has
  forests built by `Start`.
* `ComContext`, `ContextCalls`, `ComRoot`, `ComProxy`, `ProxyRequests`: the two COM bridges.
  `ContextCalls` and `ProxyRequests` say where results and errors come from. `ComRoot` runs the context and its
  proxy root as one machine. `ComProxy` contains the context as well as the native
  operation, so that the stability of `CompletedSynchronously` is derived from the word and
  not assumed.
* `ErrorCodes`, `ContextStack`, `ComPointers`, `ReferenceTracker`: errors that must be
  read, the contexts of wrapped callbacks, COM reference counts, and tracked references
  to a component root.
* `SfOperation`, `SfRace`, `SfChainRace`: `sf::AsyncOperation`, its recursive `Cancel` on the
  heap, the race of one `Cancel` with one `Complete`, and the race of a `Cancel` that goes
  down a chain with completions that go up it.
* `Threads`, `Sequences`: what several modules share.

The step machines after `EndProtocol` take each call on the lifecycle word as one step;
`InterleavedWord.Linearizable` is what allows that.

## Where the code differs from what one might expect

* The comment on `compare_mask_swap` says that only the masked part of `desired` is
  written. The code ORs in all of `desired`, and observing needs it to: that is how the
  observed flag, which is outside the lifecycle mask, gets set. The model follows the code.
* A child whose attach succeeded can be missed by the parent's `Cancel`: a completion that
  wins first and whose `Cleanup` empties the list before the sweep takes the children away
  uncancelled. `OperationRaces.NoMissedChild` states exactly when, and
  `OperationRaces.CleanupMayOvertakeSweep` gives a run.
* For the same reason a recursive cancel need not reach every live descendant. It does
  whenever the callbacks and hooks complete only their own operation; and whenever they
  complete only their own operation or operations above it and also cancel only operations
  all of whose ancestors are their own operation or above it, which covers the usual
  callback that hands the result of a child to its parent (`CancelReach.UpwardProtects`;
  `CancelReach.CancelReachesProtected` has the general condition on hooks and child lists).
  It does not when the callback of a child completes its brother, which has a child of its
  own and has not been swept yet (`CancelFamilies.MissedGrandchild`); nor when it merely
  cancels a nephew whose callback completes that brother, although each completion then
  goes upward (`CancelFamilies.MissedNephew`). For one callback that completes one operation,
  wherever the two are below the head, `CancelOrder.ReachesAllExactly` says exactly when: a
  descendant is missed if and only if the callback is going to fire, the operation is in a
  branch that is cancelled later than that of the callback, and it has a child still to be
  cancelled. For any hooks, a child that no hook names is missed if and only if Cleanup
  discarded it (`CancelReach.ReachedUnlessDiscarded`).
* With `skipCompleteOnCancel` a COM proxy whose partner drops the callback after an
  asynchronous Begin is never completed. `ComProxy.NoStrandedProxy` states exactly when the
  proxy completes and `ComProxy.StrandedWhenCancelOnlySignals` gives a run in which it does not.
* In `AsyncOperation::Cancel` the hook `OnCancel` runs after the completion has been
  claimed, or on its own when cancel is only a signal.

## Model

| member | source | states |
|---|---|---|
| LifecycleWord.SwapTakesEffect | libs/fabric_common/src/AsyncOperationState.cpp:22-38 | a masked swap whose test succeeds writes exactly the word, and leaves exactly the answer, that the atomic operation gives for the word it found, unmasked bits of `desired` included |
| LifecycleWord.FailedSwapReads | libs/fabric_common/src/AsyncOperationState.cpp:27-30 | a swap whose test fails is a read, and its answer is the atomic operation's answer on that word |
| LifecycleWord.AtomicMovesOnce | libs/fabric_common/src/AsyncOperationState.cpp:54-109 | every call leaves the word alone or makes one move: one stage forward, or one flag set, the observed flag only while Started or Completing |
| LifecycleWord.ReadBits | libs/fabric_common/include/AsyncOperationState.h:58-73 | packing and unpacking a lifecycle and two flags is a round trip, and the packed word is one-hot |
| InterleavedWord.Simulates | libs/fabric_common/src/AsyncOperationState.cpp:22-38 | a load, test or swap of any thread is invisible to the atomic object or is the one atomic step of that thread's call |
| InterleavedWord.Linearizable | libs/fabric_common/src/AsyncOperationState.cpp:22-109 | every interleaving of the loops has an atomic run with the same final state and the same history of invocations and answers |
| InterleavedWord.StepKeepsInv | libs/fabric_common/src/AsyncOperationState.cpp:22-109 | the word stays one-hot and each step keeps it or makes one move |
| InterleavedWord.RetryBound | libs/fabric_common/src/AsyncOperationState.cpp:26-37 | a loop suffers at most three genuine failures for a lifecycle call and six for a cancel request |
| InterleavedWord.WordChangesAtMostSixTimes | libs/fabric_common/include/AsyncOperationState.h:58-73 | the number of changes of the word in a run equals the rank of its present value, which is at most six |
| InterleavedWord.WordNeverRecurs | libs/fabric_common/src/AsyncOperationState.cpp:34 | a value of the word that has been replaced never comes back |
| InterleavedWord.RunAdvances | libs/fabric_common/src/AsyncOperationState.cpp:54-109 | later words never lose a stage or a flag, and the observed flag is frozen once the operation has completed |
| InterleavedWord.VerdictsSound | libs/fabric_common/src/AsyncOperationState.cpp:92-104 | every answer given or about to be given by an observation agrees with the present word |
| InterleavedWord.VerdictsAgree | libs/fabric_common/include/AsyncOperationState.h:27-33 | any two observations of a run, by whichever threads, agree on whether the operation completed synchronously |
| InterleavedWord.LostSwapCounts | libs/fabric_common/src/AsyncOperationState.cpp:32-37 | a lost swap looks again at the word it found, and counts as a failure if and only if the word had changed |
| InterleavedWord.AnswersAlone | libs/fabric_common/src/AsyncOperationState.cpp:26-37 | a call that is left alone has its answer after at most nine more steps, whatever went on before |
| OperationState.AsyncOperationState.CompareMaskSwap | libs/fabric_common/src/AsyncOperationState.cpp:22-38 | under interference the loop ends after at most six genuine failures, and its result is that of one test and update at the instant it takes effect |
| OperationState.AsyncOperationState.Transition | libs/fabric_common/src/AsyncOperationState.cpp:54-90 | each transition behaves as its atomic counterpart on some word at or after the one it started from |
| OperationState.AsyncOperationState.ObserveState | libs/fabric_common/src/AsyncOperationState.cpp:92-104 | both swaps together behave as one atomic observation |
| OperationState.ObservingDecides | libs/fabric_common/src/AsyncOperationState.cpp:92-104 | the word left and the word returned by either swap of an observation are those of the atomic observation |
| EndProtocol.EndedExactlyOnce | tests/fabric_common_tests/fabric_common_test.cpp:372-390 | starter and callback together call End at most once, and exactly once when both have checked; no assertion fails; and it is the starter exactly if the operation was not observed before it completed |
| EndProtocol.SeenThrough | tests/fabric_common_tests/fabric_common_test.cpp:372-390 | nobody can be kept from the end: in every reachable state the starter, and whoever has won, come to their check and to End if it falls to them when left alone |
| EndProtocol.AnyoneMayCall | libs/fabric_common/include/AsyncOperationState.h:27-47 | once the operation is started any thread without a role may compete, observe, peek or request cancellation |
| EndProtocol.AssertionsHold | libs/fabric_common/src/AsyncOperationState.cpp:54-104 | every transition that is asserted to succeed does, and no observation comes before Start |
| EndProtocol.StepKeepsInv | libs/fabric_common/src/AsyncOperation.cpp:94-113 | one thread holds the right to complete at a time, and the count of End calls fits the word |
| OperationRaces.CompletedOnce | libs/fabric_common/src/AsyncOperation.cpp:78-135 | one attempt to complete wins; the callback is fired once, with the winner's error and not before Completed; no assertion fails; when all threads are out a won operation is completed and has dropped its callback |
| OperationRequests.ErrorWasAskedFor | libs/fabric_common/src/AsyncOperation.cpp:82-135 | the error of a completed operation is the one with which the winning thread was asked to complete, or the cancellation, and then that thread was asked to cancel, with force if cancel is only a signal |
| OperationRaces.AssertionsHold | libs/fabric_common/src/AsyncOperation.cpp:82-92 | a completion about to store its error loses no unread one, and one about to publish finds the operation completing |
| OperationAlone.TryCompleteAlone | libs/fabric_common/src/AsyncOperation.cpp:78-135 | TryComplete that nobody races with, from any reachable state: a started operation ends completed with the given error, called back once with it, its list empty and callback dropped; any other is untouched |
| OperationAlone.CancelAlone | libs/fabric_common/src/AsyncOperation.cpp:137-176 | Cancel that nobody races with: nothing on a cancelled operation; otherwise the live children are cancelled in the order of the list, which is emptied, and a started operation is completed with the cancellation unless cancel is a signal and not forced |
| OperationAlone.AttachAlone | libs/fabric_common/src/AsyncOperation.cpp:197-227 | AttachChild appends the child, and is refused if and only if the operation is completing, completed or cancelled |
| OperationAlone.DetachAlone | libs/fabric_common/src/AsyncOperation.cpp:234-249 | DetachChild leaves the other live children in their order |
| OperationRaces.ErrorIsStable | libs/fabric_common/src/AsyncOperation.cpp:82-92 | once completed, the error is the same in every continuation of the run |
| OperationRaces.NoMissedChild | libs/fabric_common/src/AsyncOperation.cpp:137-163 | after the sweep of the first cancel the list is empty for good; a child owed a cancel and still alive is in the snapshot if and only if Cleanup had not emptied the list first; every child of the snapshot is cancelled |
| OperationRequests.ExecKeepsOwed | libs/fabric_common/src/AsyncOperation.cpp:197-249 | in every run, whoever is listed has been attached and not detached since |
| OperationRequests.ExpiredStays | libs/fabric_common/src/AsyncOperation.cpp:150-155 | a child whose last reference is gone is expired for good, so that no later sweep takes it |
| OperationRequests.DetachedIsSpared | libs/fabric_common/src/AsyncOperation.cpp:234-249 | a child detached before any sweep, and not attached again, is never again listed, swept or cancelled |
| OperationRaces.CleanupMayOvertakeSweep | libs/fabric_common/src/AsyncOperation.cpp:178-189 | a concrete run in which Cleanup empties the list first and the child is missed |
| OperationRaces.CancelCompletes | libs/fabric_common/src/AsyncOperation.cpp:163-176 | a Cancel that marked a started operation leaves it completing or later when it returns, unless cancel is only a signal and not forced |
| OperationRaces.StepKeepsChildren | libs/fabric_common/src/AsyncOperation.cpp:197-249 | attaches, detaches, sweeps and clean-ups keep the lock exclusive and every owed live child in the list until one of the two empties it |
| OperationRaces.StepKeepsCompletion | libs/fabric_common/src/AsyncOperation.cpp:94-135 | whoever finishes the completion is the thread that won it, and the stored error is the winner's |
| CancelReach.CancelFromOutside | libs/fabric_common/src/AsyncOperation.cpp:137-176 | cancelling in a quiescent forest of any shape ends and leaves it quiescent; every live child of the head has been cancelled; a forced cancel completes the head whatever it makes of cancel; and every live descendant is cancelled or completed, and completed if it was started and does not treat cancel as a signal, if hooks complete only their own operation, or complete only their own operation or those above it and cancel only operations whose ancestors are their own operation or above it, or keep to any other condition that protects the path |
| CancelReach.CancelReachesProtected | libs/fabric_common/src/AsyncOperation.cpp:163-176 | the general condition: if nothing that hooks and child lists could lead to completes an operation that is not cancelled by then, every live descendant is reached |
| CancelReach.UpwardProtects | tests/fabric_common_tests/fabric_common_test.cpp:370-417 | hooks that complete their own operation or one above it, and cancel only what hangs from there, meet that condition; so does the callback of a child that completes its parent |
| CancelReach.SelfOnlyProtects | libs/fabric_common/src/AsyncOperation.cpp:94-113 | hooks that complete nothing but their own operation meet it too, whatever they cancel |
| CancelReach.CancelSpares | libs/fabric_common/src/AsyncOperation.cpp:178-189 | under that condition no Cleanup discards a child of a protected operation, whatever the hooks do |
| CancelReach.ReachedUnlessDiscarded | libs/fabric_common/src/AsyncOperation.cpp:137-189 | a live, unsettled child that no hook names and only its parent lists is cancelled or completed if and only if it left the parent's list otherwise than through the parent's Cleanup, and is untouched if not |
| CancelReach.PathReachedUnlessDiscarded | libs/fabric_common/src/AsyncOperation.cpp:137-189 | a whole path of such operations is reached if and only if no Cleanup discarded one of them |
| CancelReach.CancelReaches | libs/fabric_common/src/AsyncOperation.cpp:163-176 | what Cancel leaves behind reaches every operation down a path whose children were not discarded |
| CancelOrder.OrderIsExact | libs/fabric_common/src/AsyncOperation.cpp:137-189 | where one callback, anywhere below the head, completes one operation, anywhere below the head, a live child of that operation that is still to be cancelled is reached unless the callback is going to fire and the operation's branch comes later in the list of live children, where the paths to the two part, than the callback's; and is untouched then |
| CancelOrder.ReachesAllExactly | libs/fabric_common/src/AsyncOperation.cpp:137-189 | and the cancel reaches every live descendant of the head if and only if this is not so or the completed operation has no live child still to be cancelled |
| CancelOrder.QuietBranches | libs/fabric_common/src/AsyncOperation.cpp:146-165 | cancelling branches that do not hold the callback changes nothing outside of them but the list of their parent |
| CancelOrder.BranchDiscards | libs/fabric_common/src/AsyncOperation.cpp:163-189 | cancelling a branch that holds the callback and not the operation it completes discards that operation's children |
| CancelOrder.CancelDropsNothing | libs/fabric_common/src/AsyncOperation.cpp:137-189 | where the callback is not going to run, or finds the operation not started, no Cleanup discards a child |
| CancelFamilies.MissedByCallback | libs/fabric_common/src/AsyncOperation.cpp:137-189 | where the first live child of the head has no children and no hook but a callback that completes another operation below or beside it, not the head, whose own OnCompleted and callback do nothing, that operation's live children, if nothing else names or lists them, stay as they were, whatever the other hooks do |
| CancelFamilies.MissedByCancel | libs/fabric_common/src/AsyncOperation.cpp:137-189 | the same where that callback cancels a third operation, without children, and it is the callback of that one that completes the other |
| CancelFamilies.MissedGrandchild | libs/fabric_common/src/AsyncOperation.cpp:137-189 | a concrete forest, built by Start, in which Cancel of the root leaves a live grandchild started and uncancelled, which Cleanup has taken from its parent's list |
| CancelFamilies.MissedNephew | libs/fabric_common/src/AsyncOperation.cpp:137-189 | another one, in which every hook completes only its own operation or one above it |
| CancelFamilies.CancelFamily | tests/fabric_common_tests/fabric_common_test.cpp:370-417 | one Cancel of an operation with any number of children, built by Start, each of which completes it from its callback, cancels and completes it and all of them |
| CancelEffects.CompletesInStart | libs/fabric_common/src/AsyncOperation.cpp:37-74 | an operation that OnStart completes, whatever else it and all other hooks do, is completed when Start returns, has fired its callback once and dropped it, has an empty list and is no longer in its parent's |
| CancelEffects.StartIsFollowed | libs/fabric_common/src/AsyncOperation.cpp:37-74 | an operation is in its parent's list before OnStart runs: when Start returns, whatever OnStart and all hooks do, it is still listed or was cancelled, completed or discarded, and it is not listed by a parent that is cancelled or completed |
| CancelEffects.OnStartCancelsParent | libs/fabric_common/src/AsyncOperation.cpp:44-56 | an OnStart that cancels the parent, anywhere in it, takes the new operation along, unless the parent's Cleanup came first |
| CancelEffects.OnStartCancelsFirst | libs/fabric_common/src/AsyncOperation.cpp:44-56 | and if that is the first thing OnStart does the new operation is cancelled |
| CancelHooks.FinishRunsHooks | libs/fabric_common/src/AsyncOperation.cpp:82-113 | a completion runs OnCompleted, and the callback if there is one: what they complete is no longer started afterwards |
| CancelHooks.OnCompletedComesFirst | libs/fabric_common/src/AsyncOperation.cpp:94-113 | OnCompleted comes before the callback and Cleanup: the error that it gives another operation stays |
| CancelHooks.EndRunsOnCancel | libs/fabric_common/src/AsyncOperation.cpp:164-174 | OnCancel runs when Cancel only signals and when it completes the operation |
| CancelHooks.OnCancelComesFirst | libs/fabric_common/src/AsyncOperation.cpp:169-173 | OnCancel comes after the claim, so the operation ends with the cancellation whatever OnCancel completes it with, and before OnCompleted and the callback |
| CancelHooks.FirstChildComesFirst | libs/fabric_common/src/AsyncOperation.cpp:160-174 | the sweep comes before OnCancel and the completion: the first live child ends with the cancellation before any hook of its parent can reach it |
| CancelHooks.SweepKeepsOrder | libs/fabric_common/src/AsyncOperation.cpp:150-162 | the sweep takes the live children, and no other, in the order of the list |
| CancelHooks.DetachKeepsOrder | libs/fabric_common/src/AsyncOperation.cpp:234-249 | detaching leaves the other live children in the order of the list |
| CancelHooks.HookForces | libs/fabric_common/src/AsyncOperation.cpp:164-176 | an operation that takes cancel as a signal is completed by a hook's Cancel if and only if that forces |
| CancelEffects.SweepEvolves | libs/fabric_common/src/AsyncOperation.cpp:137-176 | a Cancel that marks leaves every live child of the swept list cancelled, completes a started operation if forced, and only lets the forest evolve legally |
| CancelEffects.FinishEvolves | libs/fabric_common/src/AsyncOperation.cpp:82-113 | a completion under re-entrant hooks ends Completed with its own error, the callback fired once and dropped, the list empty, itself no longer in its parent's list, and every child that left a list accounted for |
| CancelEffects.EvolvedTransitive | libs/fabric_common/src/AsyncOperation.cpp:78-189 | legal evolutions compose, so nested calls keep what each of them keeps |
| CancelEffects.CancelComposes | libs/fabric_common/src/AsyncOperation.cpp:137-176 | mark and sweep, the cancels of the children, and the end of Cancel compose to one legal evolution of the forest |
| CancelTree.PotentialShrinks | libs/fabric_common/src/AsyncOperation.cpp:137-138 | each new mark or completion lowers the termination measure, whatever the hooks did meanwhile |
| CancelTree.AsyncOperation.Cancel | libs/fabric_common/src/AsyncOperation.cpp:137-176 | ends for any re-entrant hooks, and leaves the forest as the function AfterCancel says: marked and swept, the live children cancelled in list order, then signalled or completed |
| CancelTree.AsyncOperation.TryComplete | libs/fabric_common/src/AsyncOperation.cpp:115-135 | wins if and only if the operation is started, and leaves the forest as the function AfterTryComplete says |
| CancelTree.AsyncOperation.FinishComplete | libs/fabric_common/src/AsyncOperation.cpp:82-113 | error, transition, OnCompleted, callback and Cleanup, in this order, each on the forest the one before left |
| CancelTree.AsyncOperation.Start | libs/fabric_common/src/AsyncOperation.cpp:37-74 | starts the operation, appends it to its parent's children, and runs OnStart |
| CancelTree.AsyncOperation.AttachChild | libs/fabric_common/src/AsyncOperation.cpp:197-227 | attaching is refused if and only if the parent is completing, completed or cancelled, and otherwise appends the child and changes nothing else |
| CancelTree.AsyncOperation.DetachChild | libs/fabric_common/src/AsyncOperation.cpp:234-249 | removes the child, whatever its state, and every expired entry, and changes nothing else |
| ComContext.RootCancelledByExactlyOne | libs/fabric_common/src/ComAsyncOperationContext.cpp:52-75 | when both critical sections have run they have not both taken on the root's cancellation, and Cancel took it if and only if Start did not and neither Cleanup nor expiry had emptied the child; each cancels it once or never; after Start's section and Cleanup the child is empty |
| ComContext.EndedWithWinnersResult | libs/fabric_common/src/ComAsyncOperationContext.cpp:138-190 | one completion wins, the callback is invoked once and not before Completed, and the one End that succeeds returns the winner's result |
| ContextCalls.EndGivesWhatWasAskedFor | libs/fabric_common/src/ComAsyncOperationContext.cpp:124-190 | the result that End hands out is the one with which the winning thread was asked to complete, or the cancellation of a Cancel that completes |
| ComContext.AssertionsHold | libs/fabric_common/src/ComAsyncOperationContext.cpp:82-145 | the transitions of Start and of the completion find the word as they need it |
| ContextCalls.StartAlone | libs/fabric_common/src/ComAsyncOperationContext.cpp:82-122 | Start that nobody races with starts the context and stores the root, or cancels it at once if there was a Cancel before |
| ContextCalls.LateStartCancelsRoot | libs/fabric_common/src/ComAsyncOperationContext.cpp:100-119 | a Start whose critical section finds the context completing or cancelled cancels the root, once, whatever happens meanwhile |
| ContextCalls.OthersAct | libs/fabric_common/src/ComAsyncOperationContext.cpp:32-38 | asking a context for its verdict marks it observed while it has not completed and changes nothing afterwards |
| ContextCalls.CancelAlone | libs/fabric_common/src/ComAsyncOperationContext.cpp:52-75 | Cancel that nobody races with cancels the root once if it is stored and alive, and then completes a started context with the cancellation unless it is only a signal |
| ContextCalls.TryCompleteAlone | libs/fabric_common/src/ComAsyncOperationContext.cpp:124-165 | a started context is completed with the given result, its callback invoked once and dropped and its root let go of; any other is untouched |
| ContextCalls.EndAlone | libs/fabric_common/src/ComAsyncOperationContext.cpp:167-190 | End of a completed context hands out its result and ends it, and gets nothing from any other |
| ComContext.CancelCompletes | libs/fabric_common/src/ComAsyncOperationContext.cpp:52-75 | unless cancel is only a signal, a Cancel that marked a started context leaves it completing or later when it returns |
| ComRoot.CancelledContextCancelsEveryChild | libs/fabric_common/src/ComAsyncOperationContext.cpp:52-122 | in every joint run of a context and its root, with children coming and going meanwhile: when Start and the first Cancel have returned, and Cleanup had not come first, every live child attached to the root has been cancelled; the root has been cancelled once and its list is empty, unless nothing hung from it any more |
| ComRoot.StepKeepsMatch | libs/fabric_common/src/ComAsyncOperationContext.cpp:61-63 | the sweep of the root is that of the one thread that took on its cancellation, and a call that has returned has run it |
| TreeRaces.Projects | libs/fabric_common/src/AsyncOperation.cpp:78-249 | a run of the tree is a run of each of its operations, so that whatever holds of one operation under many threads holds of all |
| TreeRaces.ExactlyTheListed | libs/fabric_common/src/AsyncOperation.cpp:137-163 | when all threads have come to rest, a live attached child of a cancelled operation has been cancelled by it if and only if Cleanup had not emptied the list first |
| TreeRaces.CancelReachesTheTree | libs/fabric_common/src/AsyncOperation.cpp:137-163 | whatever threads complete, cancel, attach and detach in one tree: when all have come to rest, a cancelled operation has every live descendant cancelled with it, down to where Cleanup had emptied a list before the sweep |
| TreeRaces.CancelCompletesTheTree | libs/fabric_common/src/AsyncOperation.cpp:163-176 | and what was started and not cancelled at any time before, and does not treat cancel as a signal, has completed with an error it was asked to complete with or the cancellation, fired its callback once and dropped it, and has an empty list |
| TreeRaces.ErrorWasAskedFor | libs/fabric_common/src/AsyncOperation.cpp:82-135 | whatever threads work where in the tree: a completed operation has an error that it was itself asked to complete with, or the cancellation, and that only by force if cancel is a signal |
| TreeRaces.StepStands | libs/fabric_common/src/AsyncOperation.cpp:160-162 | every recursive call under way has marked the child or is about to, and every child whose turn is over is cancelled |
| OperationRaces.RootMissesNoChild | libs/fabric_common/include/AsyncOperation.h:252-296 | a root is never started, so Cleanup never runs on it and its Cancel misses no live child at all |
| ComContext.StepKeepsInv | libs/fabric_common/src/ComAsyncOperationContext.cpp:82-122 | every statement of Start, Cancel, TryComplete, End and Cleanup keeps the handshake and the completion invariants |
| ComProxy.EndsContextExactlyOnce | libs/fabric_common/src/ComProxyAsyncOperation.cpp:57-118 | EndComAsyncOperation is called at most once and never before the context has completed; OnStart and the callback are given the same verdict; once both have checked it was called exactly once, even if the native operation was cancelled |
| ComProxy.NoStrandedProxy | libs/fabric_common/src/ComProxyAsyncOperation.cpp:26-41 | when the callback object is gone and no thread is inside, the native operation is completed if and only if cancel completes it, or the callback was invoked, or Begin failed, gave null or completed synchronously; in particular always when skipCompleteOnCancel is false |
| ComProxy.StrandedWhenCancelOnlySignals | libs/fabric_common/src/ComProxyAsyncOperation.cpp:26-30 | a concrete run that strands the proxy when skipCompleteOnCancel is true |
| ComProxy.ResultIsCarried | libs/fabric_common/src/ComProxyAsyncOperation.cpp:105-118 | if the thread that ended the context also completed the native operation, the native error is the context's result, as FromHResult turns it into an error, and no context stays stored |
| ProxyRequests.ErrorWasAskedFor | libs/fabric_common/src/ComProxyAsyncOperation.cpp:57-118 | the error of a completed native operation is the failure that Begin replied, the invalid argument for no context or a null one, the cancellation of a Cancel that completes, or the result that the partner was asked to complete its context with, as an error |
| ProxyRequests.BeginFails | libs/fabric_common/src/ComProxyAsyncOperation.cpp:65-73 | a Begin that fails or gives no context completes a started native operation with what it replied, or the invalid argument, and leaves the callback with the partner if it keeps it |
| ProxyRequests.ServeCompletes | libs/fabric_common/src/ComAsyncOperationContext.cpp:138-165 | a partner asked to complete a started context completes it with that result |
| ProxyRequests.CancelClaimsNative | libs/fabric_common/src/AsyncOperation.cpp:137-176 | a first Cancel claims the completion of a started native operation if and only if it forces or cancel completes, and then looks for a stored context |
| ProxyRequests.CancelEndsWithoutContext | libs/fabric_common/src/ComProxyAsyncOperation.cpp:129-142 | without a stored context it comes to an end there, with the cancellation if it claimed |
| ProxyRequests.FoundContextIsCancelled | libs/fabric_common/src/ComProxyAsyncOperation.cpp:129-142 | a cancel that finds the context stored cancels that context, whatever else happens; and once everybody has returned the context has completed, unless cancel is only a signal to it |
| ComProxy.AssertionsHold | libs/fabric_common/src/ComProxyAsyncOperation.cpp:32-41 | the callback about to be invoked was not invoked before, and each transition and End finds the word as it needs it |
| ComProxy.StepKeepsInv | libs/fabric_common/src/ComProxyAsyncOperation.cpp:57-148 | every step of OnStart, the callback, the context's completion and Cancel keeps the invariant |
| ErrorCodes.ErrorCode.TryAssignFrom | libs/fabric_common/src/ErrorCode.cpp:354-383 | assignment replaces value and marks and marks the source read, does nothing on itself, and is only allowed, as the source asserts, when no unread error would be lost |
| ErrorCodes.AssignTwice | libs/fabric_common/src/ErrorCode.cpp:354-383 | an assignment that nobody has read forbids the next one, and a read allows it |
| ErrorCodes.ErrorCode.Reset | libs/fabric_common/src/ErrorCode.cpp:88-94 | only the value and the marks are replaced, and the result need not be read |
| ErrorCodes.FirstErrorTracker.Update | libs/fabric_common/include/ErrorCode.h:103-110 | after any sequence of updates the tracker holds the left fold of FirstError over them in the order of their swaps |
| ErrorCodes.FoldIsEarliestFailure | libs/fabric_common/src/ErrorCode.cpp:330-338 | that fold is the earliest failure, and success if and only if all updates were successes |
| ErrorCodes.HResultRoundTrips | libs/fabric_common/src/ErrorCode.cpp:196-240 | a result crosses the COM boundary and back unchanged if and only if it is S_OK or a failure other than the two aliased codes |
| ErrorCodes.ClientSees | libs/fabric_common/src/ErrorCode.cpp:196-213 | two codes leave as the same HRESULT if and only if they are equal or one is the public name of the other, and public codes leave as they are |
| ContextStack.FireAndUnwind | libs/fabric_common/include/AsyncOperation.h:130-151 | one firing of any number of nested wrappers and the same number of typed pops gives every wrapper its own context, leaves nothing for End to assert about, and leaves nothing to push again |
| ContextStack.OperationContextCallback.Invoke | libs/fabric_common/include/AsyncOperation.h:298-318 | nested wrappers push their contexts in wrapping order on top of what was there, and have spent them |
| ContextStack.Unwind | libs/fabric_common/include/AsyncOperation.h:137-151 | popping by type, innermost first, returns each wrapper's own context |
| ComPointers.ComUnknown.BaseRelease | libs/fabric_common/src/ComUnknownBase.cpp:43-63 | the plain decrement is made by a sole owner only, and the object is deleted when the count comes to zero |
| ComPointers.ComPointer.AssignCopy | libs/fabric_common/include/ComPointer.h:78-88 | both pointers hold the source's object, aliased or not, and all counts are conserved |
| ComPointers.ComPointer.AssignMove | libs/fabric_common/include/ComPointer.h:90-98 | the object moves and the source is empty, unless both are the same pointer, and all counts are conserved |
| ComPointers.ComPointer.Swap | libs/fabric_common/include/ComPointer.h:100-104 | two pointers exchange their objects and no count changes |
| ComPointers.ComPointer.Destroy | libs/fabric_common/include/ComPointer.h:61-65 | a pointer leaving scope gives up one reference |
| ComPointers.ComPointer.SetNoAddRef | libs/fabric_common/include/ComPointer.h:142-147 | takes over the caller's raw reference if and only if the pointer does not hold that object already |
| ComPointers.ComPointer.SetAndAddRef | libs/fabric_common/include/ComPointer.h:149-157 | takes a reference of its own and leaves the raw owners as they were |
| ComPointers.ComPointer.DetachNoRelease | libs/fabric_common/include/ComPointer.h:164-168 | the reference passes from the pointer to the caller |
| ComPointers.DeletedWhenUnowned | libs/fabric_common/src/ComUnknownBase.cpp:58-60 | an object is undeleted if and only if some ComPointer or raw owner holds it, and is never deleted twice |
| ComPointers.UnsharedHasOneOwner | libs/fabric_common/src/ComUnknownBase.cpp:20-26 | an object on which AddRef was never called has a single owner |
| ComPointers.RunToTheEnd | libs/fabric_common/include/ComPointer.h:27-168 | after any sequence of operations, in which pointers come into scope empty, copied or moved and leave it at any time and callers add and release raw references, when the last owners have let go every object ever made has been deleted exactly once |
| ComPointers.MakeCom | libs/fabric_common/include/ComUnknownBase.h:52-57 | the one reference of a new object goes to the pointer |
| ReferenceTracker.TrackerAgrees | libs/fabric_common/src/ComponentRoot.cpp:87-101 | the tracker lists exactly the ids inserted and not yet erased; insertion precedes erasure; whoever uses the tracker finds its root alive; the write lock is exclusive; no reference is released twice |
| ReferenceTracker.NothingListedInTheEnd | libs/fabric_common/src/ComponentRoot.cpp:44-47 | when the root is destroyed every reference ever inserted has been erased |
| ReferenceTracker.HolderKeepsListed | libs/fabric_common/src/ComponentRoot.cpp:87-101 | a listed reference stays listed, and its root alive, as long as any one holder does not let go |
| ReferenceTracker.OwnerKeepsRoot | libs/fabric_common/src/ComponentRoot.cpp:44-47 | an owner elsewhere keeps the root alive until it leaves |
| ReferenceTracker.WhoTakesHolds | libs/fabric_common/src/ComponentRoot.cpp:134-147 | a reader that finds a reference alive, whoever is given a copy and a new owner of the root hold it from then on |
| ReferenceTracker.WhoLeavesIsGone | libs/fabric_common/src/ComponentRoot.cpp:44-47 | whoever leaves the root holds it no longer, and the last to leave destroys it |
| ReferenceTracker.SomeoneGoesOn | libs/fabric_common/src/ComponentRoot.cpp:87-169 | no deadlock: of the threads inside a call one can take its next step |
| ReferenceTracker.StepKeepsInv | libs/fabric_common/src/ComponentRoot.cpp:165-169 | every step of adding, sharing, listing and releasing references keeps the invariant |
| SfOperation.AsyncOperation.Cancel | libs/fabric_ext2/src/AsyncOperation.cpp:56-107 | cancelling the head of a started chain of any length ends, locks no mutex that is held, cancels every member from the last to the first, clears the links on both sides and fires no callback; a completed operation is left as it is |
| SfOperation.AsyncOperation.Complete | libs/fabric_ext2/src/AsyncOperation.cpp:110-140 | completes a started operation, detaches it and fires its callback once; on a cancelled one only leaves a code behind |
| SfOperation.StartCompleteEnd | libs/fabric_ext2/src/AsyncOperation.cpp:17-140 | End says not supported before Start, in progress after it, and after Complete the code that Complete was given |
| SfOperation.CompleteInStartAndEnd | libs/fabric_ext2/src/AsyncOperation.cpp:17-53 | an operation that OnStart completes has completed synchronously, fired once, and End returns the code |
| SfOperation.AsyncOperation.Start | libs/fabric_ext2/src/AsyncOperation.cpp:17-34 | attaches to the parent and starts; completed synchronously if and only if OnStart completed it |
| SfRace.EndTellsTheWinner | libs/fabric_ext2/src/AsyncOperation.cpp:36-53 | End reports the completion's code once the callback has fired, the cancellation once that is final, and success only of an operation that completed with it |
| SfOperation.ChainIsStraight | libs/fabric_ext2/src/AsyncOperation.cpp:164-175 | the recursive and the member-by-member description of a started chain agree |
| SfOperation.StartAndCancelChain | libs/fabric_ext2/src/AsyncOperation.cpp:56-107 | a chain of any length that was built by Start is left cancelled member by member, whatever OnCancel tries to complete it with |
| SfRace.OneSideWins | libs/fabric_ext2/src/AsyncOperation.cpp:56-140 | of one Cancel and one Complete exactly one takes effect: the callback fires if and only if Complete wins, OnCancel is called if and only if Cancel wins, one of them detaches, and the completed branch of the second switch is never taken |
| SfRace.AssertionsHold | libs/fabric_ext2/src/AsyncOperation.cpp:56-140 | no switch takes an asserting branch and the callback is there when it is fired |
| SfChainRace.ChainSplits | libs/fabric_ext2/src/AsyncOperation.cpp:56-148 | a chain of any length whose head is cancelled while its last member completes and each callback completes the parent: when both are done an upper part was cancelled and the lower rest completed, each callback fired exactly where Complete won, and every link is cleared |
| SfChainRace.AssertionsHold | libs/fabric_ext2/src/AsyncOperation.cpp:56-140 | the same of every member of a chain |
| SfChainRace.CompletedHasNoChild | libs/fabric_ext2/src/AsyncOperation.cpp:88-94 | a member that is being completed or is completed has no live child, as both calls assert |
| SfChainRace.SomeoneGoesOn | libs/fabric_ext2/src/AsyncOperation.cpp:56-140 | no deadlock, though Cancel waits for each member with the locks of all members above it held |
| SfRace.FinalStatesStay | libs/fabric_ext2/src/AsyncOperation.cpp:87-104 | completed and cancelled are never left again |

## Left out

- CancelReach.CancelFromOutside: the conditions on hooks are sufficient and not necessary. The exact condition is stated before the call for one callback that completes one operation (`CancelOrder.ReachesAllExactly`), and for any hooks in terms of what Cleanup discarded (`CancelReach.PathReachedUnlessDiscarded`).
- CancelTree.AsyncOperation.Cancel: hooks are finite lists of completions and cancels; a hook that starts, attaches or detaches operations, or loops, is not modelled.
- ComProxy.EndsContextExactlyOnce: does not say that a cancel of the native operation reaches the COM context, because OnCancel may run before OnStart has stored it; the children of either operation are not in this machine.
- ComProxy.NoStrandedProxy: assumes that the context keeps the callback while it completes and that the callback is invoked once, as the source asserts; each critical section on the proxy's lock is one step, since the lock protects a single pointer.
- ComProxy.StepKeepsInv: a Begin that makes a context and then fails or gives null is not modelled; a partner that fails may keep the callback but has started nothing that could invoke it.
- TreeRaces.CancelReachesTheTree: hooks and callbacks are calls that other threads may make at any time, so it is not said which of them run before a sweep; the call that detaches an operation from its parent is such a call too.
- ComContext.EndedWithWinnersResult: results are abstract integers and the thread error message set by End is not modelled; OnStart of the derived class is a step without effect, and other threads do what it might do.
- OperationRaces.NoMissedChild: an expired child is removed by a separate environment step; the destructors that run when a temporary strong pointer dies under the lock are not modelled.
- ComPointers.RunToTheEnd: objects own no pointers themselves, so deleting one cascades to nothing; BaseTryAddRef is left out because it does not set the shared mark, and counts do not wrap around.
- ContextStack.Unwind: a pop by another type than that of the context on top is undefined in the source, so the caller must ask for the right one; a wrapper fires at most once, as `OperationRaces.CompletedOnce` shows of callbacks.
- ReferenceTracker.TrackerAgrees: ids are unbounded, so the 64-bit counter does not wrap around; roots made without tracking are left out.
- SfOperation.AsyncOperation.Cancel: an expired child ends the chain, so what hung below it is not described; error messages are left out and codes are integers.
- SfRace.OneSideWins: one Cancel and one Complete on one operation, since a second Cancel or a second Complete is asserted against by the source; the chain around it is in `SfChainRace`.
- SfChainRace.ChainSplits: completions go up the chain from its last member, since Complete asserts that the member has no live child; the callback's other effects are not modelled.
- Memory order: all steps are sequentially consistent.
- `AsyncOperation::Start` when attaching to the parent fails: the source asserts there.
- The destructor assertion of `AsyncOperationState`, `StartAndDetach`, `QueryInterface`, apartment checks, trace ids, stack traces and thread error messages: plumbing around the modelled state.
- Queries of `ErrorCode` by Win32, NT and errno values, and the numeric error table: tables over abstract integers.
- Adapters over asio, WinRT, waitable callbacks and compose_op, the transports, the key-value store and the examples: they add I/O and no protocol of their own.
