# Verification of the co_context runtime

co_context is a C++20 coroutine runtime on io_uring.  This project models its
synchronisation protocols, its rings and its scheduler loop in Dafny and proves what
they keep, for any number of coroutines and threads and for every interleaving.

A protocol is a state machine whose steps are the individual atomic operations of the
code: `State`, `Step`, `Enabled` and `Apply` give the code, `Run` a finite run of it, and
`Inv` what every step keeps.  A coroutine's own copy of a shared word is part of its
program counter, so stale reads, failed and spurious compare-and-swap and reused nodes
are all runs of the model.  Code that rewrites memory in place is a class over heap nodes
or arrays.

| file | what it models |
|---|---|
| `Lists`, `Places` | intrusive `next` chains; which coroutine sits in which list |
| `FifoLock`, `Mutex` | the lock that `mutex` promises to be; `mutex` at the granularity of its atomics, with the pointers of its queues |
| `ConditionVariable`, `WaitMorphing`, `Notification`, `MissedWaiters`, `CallsReturn` | `condition_variable` on that mutex: one step per operation, conservation of waiters over whole runs, what calls that do not overlap achieve, what overlapping ones can miss, and that calls return |
| `WaitLists`, `WaitListRefinement` | `notify_one` on plain lists of waiters, and the proof that the pointers do the same in every interleaving |
| `WaiterChain` | the list reversals and splices on heap nodes |
| `BufferedChannel`, `Rendezvous` | `channel<T, N>`, `channel<T, 1>` and `channel<T, 0>` |
| `StopState`, `StopProtocol`, `StopList` | the stop state, whole runs of it, and its doubly linked list on the heap |
| `Generator` | nested generators on promise objects, against flattening |
| `Word32`, `SubmissionQueue`, `CompletionQueue` | wrapping 32-bit counters and the two rings |
| `Semaphore` | `counting_semaphore` |
| `SharedTask`, `SharedTaskHandle` | `shared_task`: starting, awaiting and completing; the reference count |
| `ReadyQueue`, `EventLoop` | the ready queue with one round of the worker; the loop and its counters |
| `LinkedIo` | `&&` expressions, user_data tags and completion handling |
| `WhenAll`, `WhenSome` | `all`, and `some` with `any` as its one-slot case |

Three kinds of results answer each other.  Laws over every run say what is never lost,
doubled or out of order.  Laws "told by the steps alone" compute the counters, the values
and their order from the calls that were made, independently of how a step is defined.
And the `Can...` lemmas say, from every reachable state, that an operation which is not
disturbed comes to its end, and with what effect.

## How the layers fit

`Mutex.RefinesFifoLock` shows that the mutex is a FIFO lock with direct handoff, and
`WaitMorphing.MutexStaysFifo` that it stays one under a condition variable.  The channels
use that lock.  `BufferedChannel` uses the condition variables of `WaitLists`, section by
section, as `WaitListRefinement.RefinesWaitLists` gives them for every interleaving.
`Rendezvous` takes the oldest waiter in one step and registers it in another, which is
what `Notification.RefinesFifoQueue` gives for calls that do not overlap on one condition
variable; `Rendezvous.NotifiersTakeTurns` shows that in `channel<T, 0>` they never do.

## What does not hold as the code stands

* `notify_one` step 5 (lib/co_context/co/condition_variable.cpp:75-81) is meant to append a
  whole reversed batch, but the loop before it leaves the oldest node's `next` null, so
  that the others are suspended and in nobody's reach from then on.  Step 5 needs two
  overlapping calls.  `WaitMorphing.ConservedIff` gives the exact condition,
  `WaitMorphing.LostForever` the finality, `WaitMorphing.OverlapCanLose` a run that loses a
  named waiter, `WaitMorphing.TurnsConserve` the guarantee for calls that do not overlap.
* Two overlapping `notify_one` calls can also miss a waiter without losing it: one call takes
  all of `awaiting`, and the other, past its look at `to_resume`, finds nobody.
  `MissedWaiters.MissesInRunsIff` gives the exact condition, `MissedWaiters.OverlapCanMiss` a
  run.  `channel<T, N>` with N >= 1 notifies outside its mutex, so on several threads its
  calls can overlap, and a consumer can be left parked at a non-empty buffer:
  `BufferedChannel.OverlapStrands`.  `BufferedChannel.NoLostWakeUp` holds without such
  calls, `BufferedChannel.TurnsSuffice` gives the condition a caller can see to.
* `counting_semaphore` takes its counter down before the waiter is in a list, and
  `release` uses the result of `try_release` unchecked.  `Semaphore.NullIff` says exactly
  when that result is null, `Semaphore.NullReachable` gives a run,
  `Semaphore.QuietNeverNull` the condition under which it never is.
* `release(0)` on a contended semaphore wakes a waiter without a permit
  (`Semaphore.ZeroReleaseGivesAway`); the loop runs min(update, waiters) times exactly for
  positive updates (`Semaphore.RoundsIs`), and then wakes as many
  (`Semaphore.ReleaseWakesMin`).
* `some(...)` claims a rank and writes its slot in two steps, so the parent may be resumed
  before all slots are written (`WhenSome.ResumedTooEarly`); `WhenSome.CompleteAtWakeIff`
  gives the exact condition.
* A `timeout(...)` that is followed by another operand of `&&` breaks the chain of linked
  requests in two, though the coroutine is still resumed once (`LinkedIo.OneChainIff`,
  `LinkedIo.TimeoutInTheMiddle`).
* A comment of `shared_task` says that the reference count starts at 2, one of them for the
  running coroutine (include/co_context/shared_task.hpp:289-291); the code starts at 1
  (line 69) and awaiting takes no reference, so the last handle destroys the frame whether it
  runs, or is awaited, or not.  `SharedTask.LastDropSafeIff` gives the exact condition under
  which that is harmless, `SharedTask.DestroyedWhileQueued` a run in which it is not,
  `SharedTask.OneHandleEach` what callers can do.

## Model

| member | source | states |
|---|---|---|
| Mutex.StepInv | lib/co_context/co/mutex.cpp:14-84 | every atomic step keeps the pointer-level invariant and is, seen from outside, either nothing, one registration or one unlock of a FIFO lock; the assertions of `unlock` hold |
| Mutex.RefinesFifoLock | lib/co_context/co/mutex.cpp:22-80 | every run, with stale reads, spurious failures and reused nodes, is a run of a FIFO lock: one owner at most, unlocked only if nobody waits, grants in push order, the assertions at lines 23, 38 and 51 never fail |
| Mutex.ReleaseInv | lib/co_context/co/mutex.cpp:25-32 | the compare-and-swap to unlocked succeeds only when no waiter is queued anywhere |
| Mutex.PushInv | lib/co_context/co/mutex.cpp:67-78 | a push whose compare-and-swap succeeds on a word that left and came back still links the stack correctly |
| Mutex.ReverseInv | lib/co_context/co/mutex.cpp:43-48 | one turn of the reversal loop, while others push, keeps every waiter in one list and the push order |
| Mutex.CanLock | lib/co_context/co/mutex.cpp:14-66 | from every reachable state a free mutex can be locked, by try_lock or by awaiting lock(), in one or two steps |
| Mutex.CanRetry | lib/co_context/co/mutex.cpp:57-80 | register_awaiting with any value of the word in hand, current or not, ends in the lock or in the queue when it is not disturbed |
| Mutex.CanUnlock | lib/co_context/co/mutex.cpp:22-55 | unlock by the owner comes to its end and leaves the lock as the FIFO lock's unlock does: with the oldest waiter, or free |
| ConditionVariable.StepInv | lib/co_context/co/condition_variable.cpp:6-110 | every step, the faulty splice included, keeps every pointer chain well formed and knows for each waiter the one list it is in, or that it is in none any more; the mutex invariant holds throughout |
| ConditionVariable.LockEffect | lib/co_context/co/mutex.cpp:14-84 | what one mutex step does to the registration and ownership of each single coroutine |
| ConditionVariable.FlipInv | lib/co_context/co/condition_variable.cpp:54-63 | one turn of the reversal loop keeps the batch in the notifier's hands, in order |
| ConditionVariable.AppendInv | lib/co_context/co/condition_variable.cpp:75-81 | step 5 with a batch of one waiter keeps everybody |
| ConditionVariable.AfterStepFive | lib/co_context/co/condition_variable.cpp:75-81 | the pointers after step 5 for a batch of any length and any tail: at most its oldest waiter has been appended, and nothing else has changed hands |
| ConditionVariable.StepFiveLoses | lib/co_context/co/condition_variable.cpp:54-81 | after step 5 every node of the batch but the oldest is lost: suspended, on no mutex, and not reachable from awaiting, to_resume or any notifier |
| ConditionVariable.LostStep | lib/co_context/co/condition_variable.cpp:6-110 | a waiter is lost after a step if and only if it was lost before or the step is a step 5 that leaves it behind; a lost waiter that is parked stays parked |
| WaitMorphing.OnePlace | lib/co_context/co/condition_variable.cpp:6-110 | by the pointers, a suspended coroutine is in exactly one of awaiting, to_resume, one notifier's hands and the mutex, or else it is lost |
| WaitMorphing.ResumesAsSoleOwner | include/co_context/co/condition_variable.hpp:34-38 | in every run, overlapping notifiers included, a step that resumes a `wait` leaves its coroutine as the owner of the mutex and nobody else |
| WaitMorphing.MutexStaysFifo | lib/co_context/co/condition_variable.cpp:6-110 | in every run the mutex under the condition variable goes, step by step, through the states of a FIFO lock with the effect of each mutex operation, and its assertions hold, whatever the notifiers do |
| WaitMorphing.ConservedIff | lib/co_context/co/condition_variable.cpp:23-110 | a run accounts for all its waiters at every moment if and only if it never takes step 5 with a batch of two or more; somebody is lost if and only if it does |
| WaitMorphing.ConservedOrLost | lib/co_context/co/condition_variable.cpp:23-110 | a state fails to account for its waiters exactly if some waiter is lost in it |
| WaitMorphing.LostForever | lib/co_context/co/condition_variable.cpp:65-81 | whoever is lost stays lost in every later state of every run, and parked once it is |
| WaitMorphing.LossHasVictim | lib/co_context/co/condition_variable.cpp:75-81 | a step 5 with a batch of two or more loses the node that `succ` points to, in all later states |
| WaitMorphing.TurnsConserve | lib/co_context/co/condition_variable.cpp:23-110 | with notifiers that do not overlap all waiters are conserved, in every interleaving with lockers and waiters |
| WaitMorphing.OverlapCanLose | lib/co_context/co/condition_variable.cpp:23-82 | two overlapping notify_one calls and four waiters: all are accounted for until the last step, after which waiter 3 is parked and lost in every continuation |
| Notification.NotifyOneStep | lib/co_context/co/condition_variable.cpp:34-52 | steps 1 and 2 of a notify_one that runs alone take the oldest waiter, or return only if nobody waits |
| Notification.BatchStep | lib/co_context/co/condition_variable.cpp:54-74 | the reversal loop leaves the order of the waiters as it is, and step 4 takes the oldest one |
| Notification.NotifyAllStep | lib/co_context/co/condition_variable.cpp:98-109 | notify_all takes the newest waiters off `awaiting` and the oldest off `to_resume`, and leaves the rest in order |
| Notification.RefinesFifoQueue | lib/co_context/co/condition_variable.cpp:6-110 | with calls that do not overlap every run is step by step a run of a FIFO queue, and the step alone tells the event: waiting joins at the end, notify_one takes the head to the mutex and finds nobody only if the queue is empty, notify_all takes all; the queue lists every suspended waiter that is neither registered nor on the chain or in the hand of the active notifier |
| Notification.NotifyAllReachesAll | lib/co_context/co/condition_variable.cpp:84-110 | between its start and its return notify_all registers on the mutex everybody who was suspended at its start and not being registered already |
| MissedWaiters.MissesInRunsIff | lib/co_context/co/condition_variable.cpp:45-52 | in every run, a notify_one that finds `awaiting` empty misses a waiter exactly if to_resume is not empty any more or another call is reversing a batch |
| MissedWaiters.MissesIff | lib/co_context/co/condition_variable.cpp:45-52 | the same for any state; and whoever waits at such a moment is missed, lost, or about to be registered by another call |
| MissedWaiters.TurnsMissNobody | lib/co_context/co/condition_variable.cpp:23-110 | with calls that do not overlap no waiter is missed |
| MissedWaiters.OverlapCanMiss | lib/co_context/co/condition_variable.cpp:34-74 | two overlapping notify_one calls for two waiters: nobody is lost at any moment, but one call misses waiter 1, which is still parked on to_resume when both calls are over |
| MissedWaiters.StrandedUntilNotified | lib/co_context/co/condition_variable.cpp:36-43 | such a waiter stays there, parked, until somebody notifies again |
| CallsReturn.CanWait | lib/co_context/co/condition_variable.cpp:6-19 | an owner of the mutex can push itself, linked to the current head, and let the mutex go |
| CallsReturn.PushRetries | lib/co_context/co/condition_variable.cpp:9-16 | the push succeeds exactly if the head is the one seen and the exchange is not spuriously refused, and is retried with the current head otherwise |
| CallsReturn.CanNotifyOne | lib/co_context/co/condition_variable.cpp:23-82 | from every reachable state, lost and missed waiters included, a notify_one made while somebody is on one of the two lists can register a waiter and return |
| CallsReturn.CanReturn | lib/co_context/co/condition_variable.cpp:23-110 | every call in progress can be brought to its return by its own steps |
| CallsReturn.CanNotifyAll | lib/co_context/co/condition_variable.cpp:84-110 | a notify_all can start and return |
| WaitLists.AdvanceConserves | lib/co_context/co/condition_variable.cpp:34-80 | each section of notify_one keeps the waiters on the two lists and in the call's hands, but for those that step 5 drops |
| WaitListRefinement.RefinesWaitLists | lib/co_context/co/condition_variable.cpp:6-82 | every run without notify_all, overlapping calls included, is step by step a run of the plain lists: the pointers are those lists, and a waiter is lost exactly if it is dropped from them |
| WaiterChain.ReverseStack | lib/co_context/co/mutex.cpp:40-48 | on heap nodes, the loop turns any stack into the chain of its reversal |
| WaiterChain.FlipBatch | lib/co_context/co/condition_variable.cpp:54-63 | the loop of notify_one yields the oldest node alone and the chain of the others, oldest first; `head` does not lead to `succ` |
| WaiterChain.ResumeList.Pop | lib/co_context/co/condition_variable.cpp:36-47 | takes the oldest waiter and keeps head, tail and order |
| WaiterChain.ResumeList.Merge | lib/co_context/co/condition_variable.cpp:65-80 | steps 4 and 5 keep every waiter, in order, if and only if the list was empty or the batch has one node |
| WaiterChain.BackwardsIsReverse | lib/co_context/co/mutex.cpp:43-48 | nodes that each point to their predecessor, read from the last, are the reversal |
| BufferedChannel.StepInv | include/co_context/co/channel.hpp:41-81 | every step, each section of overlapping notify_one calls included, keeps the places of all waiters; every step but a miss keeps the wake-up credit of both sides |
| BufferedChannel.FifoAndBounded | include/co_context/co/channel.hpp:54-81 | the buffer holds what has been put and not taken, in order, and at most `capacity` elements |
| BufferedChannel.DeliversInOrder | include/co_context/co/channel.hpp:54-81 | told by the calls alone: the values consumers get, in order, are the arguments of the releases in the order of their puts, but for the at most `capacity` ones still in the buffer |
| BufferedChannel.MovesRightValue | include/co_context/co/channel.hpp:58-79 | in each step of a run: a consumer gets the oldest element, a producer puts the argument of its own last release, also after waiting, and nothing else touches the buffer |
| BufferedChannel.KeepsElement | include/co_context/co/channel.hpp:61-66 | a consumer that has got its element still has that one when it returns |
| BufferedChannel.CanAcquire | include/co_context/co/channel.hpp:54-67 | acquire on a free channel with an element can return the oldest one and leave everything else as it was |
| BufferedChannel.CanRelease | include/co_context/co/channel.hpp:69-81 | release(v) on a free channel with room can append v and return |
| BufferedChannel.WakeUpsCoverBuffer | include/co_context/co/channel.hpp:41-81 | until a call misses a waiter: while a consumer waits each element has a notification or a woken consumer, and dually for producers and free slots |
| BufferedChannel.NoLostWakeUp | include/co_context/co/channel.hpp:41-81 | in every run in which no call misses or drops a waiter: when nobody can run, all that are inside are consumers at an empty buffer, or all are producers at a full one |
| BufferedChannel.MissBreaksIff | include/co_context/co/channel.hpp:80 | a call that misses a waiter leaves its side without cover exactly if there was no wake-up to spare |
| BufferedChannel.TurnsSuffice | include/co_context/co/channel.hpp:50-80 | no call misses or drops a waiter if calls on one condition variable do not overlap; calls on the two may |
| BufferedChannel.NoLostWakeUpInTurns | include/co_context/co/channel.hpp:41-81 | so then no wake-up is lost, in every interleaving |
| BufferedChannel.OverlapStrands | include/co_context/co/channel.hpp:41-81 | a run in which two producers notify two consumers at once and one consumer is parked for good although the buffer holds an element, for any two values |
| BufferedChannel.Ring.Push | include/co_context/co/channel.hpp:117-123 | the ring's contents grow by the new element at the end, across the wrap of m_last |
| BufferedChannel.Ring.Pop | include/co_context/co/channel.hpp:109-115 | the ring gives up its oldest element, across the wrap of m_first |
| Rendezvous.StepInv | include/co_context/co/channel.hpp:218-267 | every step keeps the roles of the owners of the three locks, m_receiver, m_has_sender and the item |
| Rendezvous.NotifiersTakeTurns | include/co_context/co/channel.hpp:218-267 | calls of m_match_cv.notify_one never overlap, and at most one coroutine is on m_match_cv or in a notifier's hand |
| Rendezvous.NoMissedMeeting | include/co_context/co/channel.hpp:218-267 | no reachable state where nobody can run has both a sender and a receiver inside |
| Rendezvous.HandsOver | include/co_context/co/channel.hpp:262-266 | after a delivery notify_one finds the receiver, with its item in place, and from its registration on the receiver owns m_match_mtx, ahead of everybody else |
| Rendezvous.DeliversEachOnce | include/co_context/co/channel.hpp:234-267 | of the histories: received values are a prefix of the sent ones, at most one behind, and equal to them when no receiver is inside |
| Rendezvous.ReturnsWhatWasSent | include/co_context/co/channel.hpp:234-267 | told by the calls alone: what the acquires return, in order, are the arguments of the releases in the order of their deliveries, at most one behind, and none behind when no receiver is inside |
| Rendezvous.DeliversArgument | include/co_context/co/channel.hpp:251-262 | the value a sender delivers is the argument of its own last release, whether or not it waited |
| Rendezvous.ReturnsSomething | include/co_context/co/channel.hpp:242-248 | an acquire that returns has a value to return |
| Rendezvous.NobodyWakesInVain | include/co_context/co/channel.hpp:242-261 | a predicate evaluated after a notification is true, and one evaluated at first is false: no wait loops |
| Rendezvous.CanMeet | include/co_context/co/channel.hpp:234-267 | a receiver and a sender, in this order, can meet and leave the channel as it was, the receiver with the sender's value |
| Rendezvous.CanMeetSenderFirst | include/co_context/co/channel.hpp:234-267 | so can a sender and a receiver |
| StopState.StepInv | include/co_context/co/stop_token.hpp:161-334 | every atomic step of requesters, registrars and removers keeps the lock, the list, the stage of each callback and the role of the requester |
| StopProtocol.OnceOnly | include/co_context/co/stop_token.hpp:173-225 | at most one request_stop returns true and each callback runs at most once |
| StopProtocol.NestedRequestFails | include/co_context/co/stop_token.hpp:173-180 | a request_stop made from inside a callback, on whatever thread it runs, sees the stop bit and so returns false |
| StopProtocol.CountsAreExact | include/co_context/co/stop_token.hpp:161-225 | told by the steps alone: the number of sources, whether a stop has been requested, how many requests returned true, and how often each callback was started and has returned |
| StopProtocol.FalseMeansRequested | include/co_context/co/stop_token.hpp:176-178 | request_stop returns false only if a stop has been requested |
| StopProtocol.RetriesAreFresh | include/co_context/co/stop_token.hpp:297-334 | whoever has to try for the lock again does so with the current value of the word |
| StopProtocol.CanStop | include/co_context/co/stop_token.hpp:173-182 | a first request can set the stop bit, take the lock and record its thread |
| StopProtocol.CanRunAll | include/co_context/co/stop_token.hpp:184-224 | a request_stop that has won can run every callback that is linked, each to its end, and return true with the list empty and the lock free |
| StopProtocol.CanFail | include/co_context/co/stop_token.hpp:173-180 | a second request returns false at once and changes nothing |
| StopProtocol.CanRegister | include/co_context/co/stop_token.hpp:228-253 | before a stop register_callback can link the callback in front |
| StopProtocol.CanRegisterLate | include/co_context/co/stop_token.hpp:231-243 | after a stop it runs the callback once, with no source left not at all, and links nothing |
| StopProtocol.CanRemove | include/co_context/co/stop_token.hpp:257-277 | remove_callback can take a linked callback out, the others keep their order |
| StopProtocol.CanMiss | include/co_context/co/stop_token.hpp:257-282 | a callback that is not linked any more is found missing under the lock, which is given back |
| StopProtocol.CanRemoveLate | include/co_context/co/stop_token.hpp:286-290 | it can return once its callback has been run by another thread |
| StopProtocol.CanRemoveItself | include/co_context/co/stop_token.hpp:293-295 | a callback that removes itself tells the request that runs it |
| StopProtocol.TrueMeansAllHandled | include/co_context/co/stop_token.hpp:184-224 | when it returns true, also by the early return of line 217, the list is empty and each callback linked at the stop has finished or was removed first |
| StopProtocol.NothingLinkedAfterStop | include/co_context/co/stop_token.hpp:228-253 | once the stop bit is set it stays and the list only shrinks |
| StopProtocol.LinkedBeforeStop | include/co_context/co/stop_token.hpp:184-193 | what is still linked during a stop request was linked when it came and has not run |
| StopProtocol.RemoveSynchronises | include/co_context/co/stop_token.hpp:257-295 | remove_callback returns only if the callback never started, has returned, or is running on the removing thread itself |
| StopProtocol.NeverTouchesDestroyed | include/co_context/co/stop_token.hpp:195-222 | no step dereferences a callback whose removal has returned, even if it destroyed itself |
| StopProtocol.Encoding | include/co_context/co/stop_token.hpp:119-158 | the bit tests and additions on the packed 32-bit word are those of the three fields, for up to 2^30 - 1 sources |
| StopList.CallbackList.Register | include/co_context/co/stop_token.hpp:246-250 | links a callback in front of a doubly linked list and keeps both directions |
| StopList.CallbackList.Pop | include/co_context/co/stop_token.hpp:186-193 | takes the head, leaves its m_prev null, and tells whether it was the last |
| StopList.CallbackList.Unlink | include/co_context/co/stop_token.hpp:268-275 | takes out an inner callback and keeps all others in order |
| StopList.CallbackList.Remove | include/co_context/co/stop_token.hpp:260-277 | finds the callback exactly if it is still linked, although it only tests m_head and m_prev |
| Generator.Collect | include/co_context/generator.hpp:499-518 | iterating over any tree of yields, nested generators, handlers and throws reads exactly its flattening and ends with the same exception, if any |
| Generator.Tree.Resume | include/co_context/generator.hpp:506-510 | one increment delivers the next value of the flattening through `_Top` and `_Ptr`, or ends the root when there is none |
| Generator.Tree.Step | include/co_context/generator.hpp:351-471 | entering, skipping or leaving a nested generator changes nothing of what remains to be delivered, and makes progress |
| Generator.Tree.EnterChild | include/co_context/generator.hpp:439-464 | the child becomes `_Top` of the root found through `_Info`, and the `_Parent` chain from `_Top` still ends at the root |
| Generator.Tree.LeaveChild | include/co_context/generator.hpp:397-470 | the parent becomes `_Top` again and its nested yield returns, or rethrows the child's exception |
| Generator.Tree.LinkedRoot | include/co_context/generator.hpp:456-460 | the root that a nested generator finds is the root of the tree, at any depth |
| Generator.ContinueFlattens | include/co_context/generator.hpp:466-470 | how a parent goes on after its child is what flattening says |
| Generator.FlattenAppend | include/co_context/generator.hpp:466-470 | flattening distributes over sequencing, exceptions included |
| SubmissionQueue.Partition | extern/liburingcxx/include/uring/detail/sq.hpp:132-141 | each entry is in exactly one of: with the kernel, held by the application, free |
| SubmissionQueue.TakeInv | extern/liburingcxx/include/uring/detail/sq.hpp:154-159 | the entry handed out was free, and the bookkeeping stays exact |
| SubmissionQueue.AppendInv | extern/liburingcxx/include/uring/detail/sq.hpp:170-173 | appending any held entry, in any order, keeps the partition and extends the log by it |
| SubmissionQueue.ConsumeInv | extern/liburingcxx/include/uring/detail/sq.hpp:132-141 | the kernel gets entries in append order, and each is free afterwards |
| SubmissionQueue.StoredAppend | extern/liburingcxx/include/uring/detail/sq.hpp:170-173 | the slot written by an append is no live position's slot |
| SubmissionQueue.ConsumeAgrees | extern/liburingcxx/include/uring/detail/sq.hpp:132-141 | the slot at the masked khead holds the oldest published entry of the log, and the wrapped counters still agree with the log after the kernel has moved on |
| SubmissionQueue.Queue.constructor | extern/liburingcxx/include/uring/detail/sq.hpp:54-56 | after mapping and iota, all entries are free |
| SubmissionQueue.Queue.GetSqEntry | extern/liburingcxx/include/uring/detail/sq.hpp:143-159 | on wrapping words and a possibly stale head: null exactly if no entry is free as far as that head tells, else a free entry becomes held |
| SubmissionQueue.Queue.AppendSqEntry | extern/liburingcxx/include/uring/detail/sq.hpp:170-173 | appends a held entry; the assertion of line 172 holds for every value a read of khead can return |
| SubmissionQueue.Queue.Flush | extern/liburingcxx/include/uring/detail/sq.hpp:64-96 | publishes exactly the appended entries and returns how many the kernel has not consumed |
| SubmissionQueue.Queue.Pending | extern/liburingcxx/include/uring/detail/sq.hpp:104-118 | the number of appended entries not consumed, across the wrap of the counters |
| SubmissionQueue.Queue.KernelConsume | extern/liburingcxx/include/uring/detail/sq.hpp:132-141 | the entry read through the array is the oldest of the log that was not consumed |
| SubmissionQueue.InOrderQueue.NextIsFree | extern/liburingcxx/include/uring/detail/sq.hpp:160-166 | without sqe_reorder, the next slot is not that of any entry the kernel still has |
| SubmissionQueue.InOrderQueue.GetSqEntry | extern/liburingcxx/include/uring/detail/sq.hpp:143-167 | without sqe_reorder, null exactly if the ring is full as far as the head read tells, else an entry not in use, appended at once |
| SubmissionQueue.InOrderQueue.KernelConsume | extern/liburingcxx/include/uring/detail/sq.hpp:132-141 | the kernel gets the entries in the order in which they were handed out |
| Word32.Slot | extern/liburingcxx/include/uring/detail/sq.hpp:155 | masking a wrapped counter gives the slot of the counter that never wraps |
| Word32.SlotsApart | extern/liburingcxx/include/uring/detail/sq.hpp:170-171 | positions less than one lap apart have different slots |
| CompletionQueue.Queue.Post | extern/liburingcxx/include/uring/detail/cq.hpp:53-59 | the kernel's entry lands in a slot that no unreaped entry uses |
| CompletionQueue.Queue.CqAdvance | extern/liburingcxx/include/uring/uring.hpp:786-790 | releases the oldest entries |
| CompletionQueue.Queue.Handle | lib/co_context/detail/worker_meta.cpp:166-183 | the copied fields are those of the oldest entry even if the kernel reuses its slot as soon as it is released |
| CompletionQueue.Queue.ForEachCqe | extern/liburingcxx/include/uring/uring.hpp:178-190 | with the kernel posting between any two steps and the handler advancing khead, each entry is handled once, in order, and the count is right modulo 2^32 |
| CompletionQueue.Queue.PeekBatch | extern/liburingcxx/include/uring/uring.hpp:477-509 | looks at exactly the first min(max, ready) entries, after one flush if none is ready |
| Semaphore.StepInv | lib/co_context/co/semaphore.cpp:21-97 | every atomic step keeps both conservation laws, the queue and the lock of the notifiers |
| Semaphore.PermitsConserved | lib/co_context/co/semaphore.cpp:21-97 | permits handed out, owed and left in the counter add up to those put in, and -counter plus owed wake-ups to the waiters queued or in transit |
| Semaphore.CounterIsExact | lib/co_context/co/semaphore.cpp:21-61 | told by the calls alone: the counter is the initial value plus all updates less all acquisitions begun or taken, and those who got through are the direct ones and the woken ones |
| Semaphore.TryAcquireTakes | lib/co_context/co/semaphore.cpp:21-28 | try_acquire that has loaded a positive counter takes a permit exactly if the counter is the same at its exchange, and otherwise changes nothing |
| Semaphore.TryAcquireFails | lib/co_context/co/semaphore.cpp:22-23 | one that has loaded no permit returns false and changes nothing |
| Semaphore.PushesAreExact | lib/co_context/co/semaphore.cpp:91-96 | who is in the queue has been pushed by an exchange that found the head its `next` holds |
| Semaphore.CanTakePermit | lib/co_context/co/semaphore.cpp:21-28 | an idle coroutine that meets a permit can take it, by try_acquire or acquire |
| Semaphore.CanQueue | lib/co_context/co/semaphore.cpp:86-97 | one that meets none can join the queue, last |
| Semaphore.CanRelease | lib/co_context/co/semaphore.cpp:30-43 | release() with somebody queued and nobody at work can pass its permit to the oldest waiter |
| Semaphore.WokenGoesOn | lib/co_context/co/semaphore.cpp:99-101 | a woken waiter goes on, and nothing else changes |
| Semaphore.NoLostWakeUp | lib/co_context/co/semaphore.cpp:30-97 | at rest exactly max(0, -counter) waiters are parked, none if the counter is not negative |
| Semaphore.WokenInOrder | lib/co_context/co/semaphore.cpp:63-97 | waiters are woken in the order of their pushes |
| Semaphore.NullIff | lib/co_context/co/semaphore.cpp:38-42 | try_release returns null on the release path exactly if all waiters due are between decrement and push |
| Semaphore.QuietNeverNull | include/co_context/co/semaphore.hpp:27-31 | it never does when no releaser looks while an acquirer is between decrement and push |
| Semaphore.NullReachable | include/co_context/co/semaphore.hpp:27-31 | a run of one acquirer and one releaser in which it does |
| Semaphore.ReleaseWakesExactly | lib/co_context/co/semaphore.cpp:45-61 | from the counter update to the end of the release, the releaser wakes exactly the number it owes, whatever others do |
| Semaphore.ReleaseWakesMin | lib/co_context/co/semaphore.cpp:45-61 | release(update) makes exactly min(update, -old) wake-ups between its update of the counter and its end, none if the counter was not negative, whatever others do |
| Semaphore.EachRoundWakes | lib/co_context/co/semaphore.cpp:52-97 | each of these wake-ups takes the oldest waiter and nobody else |
| Semaphore.RoundsIs | lib/co_context/co/semaphore.cpp:52-58 | the number of rounds is min(update, -counter) exactly if the update is positive, and one otherwise |
| Semaphore.CountRounds | lib/co_context/co/semaphore.cpp:52-58 | the do-while runs min(update, -counter) times exactly if the update is positive |
| Semaphore.ZeroReleaseGivesAway | lib/co_context/co/semaphore.cpp:45-61 | a run in which release(0) lets a waiter through without a permit |
| SharedTask.StepInv | include/co_context/shared_task.hpp:42-62 | every step of the awaiters, of the task and of the walk at completion keeps the invariant and never takes the word to an earlier phase |
| SharedTask.PhasesAreMonotone | include/co_context/shared_task.hpp:116-158 | over a run the four phases of the word only advance, and the coroutine is started exactly when it leaves the first one, once |
| SharedTask.EachWaiterSpawnedOnce | include/co_context/shared_task.hpp:42-62 | at the end those whose try_await returned true have been spawned once each, nobody else has, and nobody waits |
| SharedTask.ReadsAfterCompletion | include/co_context/shared_task.hpp:144-149 | nobody gets through before the result is there, and nobody is queued after |
| SharedTask.CountsAreExact | include/co_context/shared_task.hpp:87-100 | told by the steps alone: the count of handles, whether the frame is destroyed, and whether the result is ready |
| SharedTask.AwaitsEnd | include/co_context/shared_task.hpp:268-271 | await_ready lets an awaiter pass exactly if the task has completed, and reading ends the await |
| SharedTask.RetriesAreFresh | include/co_context/shared_task.hpp:132-158 | an exchange of an awaiter succeeds exactly if the word is the one it has seen, and is retried with the current word otherwise |
| SharedTask.CanRunThrough | include/co_context/shared_task.hpp:116-158 | the first awaiter can start a task that does not suspend, and read its result without having been queued |
| SharedTask.CanQueue | include/co_context/shared_task.hpp:144-158 | an awaiter that comes while the task is away can be queued |
| SharedTask.CanWake | include/co_context/shared_task.hpp:52-58 | each queued one can be woken by the walk and read |
| SharedTask.CanRead | include/co_context/shared_task.hpp:268-271 | one that comes after completion can read at once |
| SharedTask.WaiterIsReachable | include/co_context/shared_task.hpp:42-62 | a waiter is always on the list of a task that can still complete, or on the list being walked |
| SharedTask.LastDropSafeIff | include/co_context/shared_task.hpp:384-390 | when the last handle goes, no step of any continuation accesses the destroyed frame if and only if nobody is between `co_await` and the end of await_resume |
| SharedTask.SettledIsOver | include/co_context/shared_task.hpp:42-62 | in that case the task has not been started, or it has completed and woken everybody |
| SharedTask.NeverUsedAfterFree | include/co_context/shared_task.hpp:68-100 | a run whose last handle goes at such a moment only never accesses a destroyed frame, neither from an awaiter, nor from the task, nor from the walk at completion |
| SharedTask.OneHandleEach | include/co_context/shared_task.hpp:298-303 | which is so if each awaiter keeps a handle of its own until it has read |
| SharedTask.DestroyedWhileQueued | include/co_context/shared_task.hpp:345-362 | a run in which the only handle goes while the task is suspended and its awaiter queued, and the task then runs on in the destroyed frame |
| SharedTaskHandle.NeverDangles | include/co_context/shared_task.hpp:285-331 | a live handle never points to a destroyed frame |
| SharedTaskHandle.Handle.Drop | include/co_context/shared_task.hpp:384-390 | the frame is destroyed exactly if this was its last handle |
| SharedTaskHandle.Handle.Copy | include/co_context/shared_task.hpp:298-303 | the count stays the number of live handles |
| SharedTaskHandle.Handle.Move | include/co_context/shared_task.hpp:294-296 | the count stays the number of live handles, the source becomes empty |
| SharedTaskHandle.Handle.CopyAssign | include/co_context/shared_task.hpp:319-331 | the old frame is destroyed exactly if this was its last handle and the new frame is another one; assignment to itself is harmless |
| SharedTaskHandle.Handle.MoveAssign | include/co_context/shared_task.hpp:307-317 | the same for moving, for handles of the same frame too |
| ReadyQueue.Queue.ForwardTask | lib/co_context/detail/worker_meta.cpp:153-164 | appends to the FIFO contents, across the wrap of the 32-bit cursor |
| ReadyQueue.Queue.Schedule | lib/co_context/detail/worker_meta.cpp:109-119 | removes the oldest task |
| ReadyQueue.Queue.Size | include/co_context/detail/spsc_cursor.hpp:53-56 | the wrapped difference is the number of tasks |
| ReadyQueue.Queue.IsEmpty | include/co_context/detail/spsc_cursor.hpp:48-51 | the cursors are equal exactly if no task is ready |
| ReadyQueue.Queue.AvailableNumber | include/co_context/detail/spsc_cursor.hpp:58-61 | the room left |
| ReadyQueue.Queue.DoWorkerPart | lib/co_context/io_context.cpp:75-84 | one round resumes exactly the tasks ready at its start, in order, even if each respawns itself; what they forward is the next round |
| EventLoop.StepInv | lib/co_context/io_context.cpp:75-142 | every step of the loop, of a resumed task and of the kernel keeps the request counters and what is known at each point |
| EventLoop.AccountingIsExact | lib/co_context/detail/worker_meta.cpp:91-99 | requests_to_reap is unsubmitted plus in the kernel plus posted, at every moment |
| EventLoop.NothingGoesAstray | lib/co_context/detail/worker_meta.cpp:91-228 | told by the steps alone: every task spawned or forwarded is ready or has been resumed, and every request made is unsubmitted, in the kernel, posted or handled |
| EventLoop.PassResumesTheReady | lib/co_context/io_context.cpp:75-84 | one pass resumes as many tasks as were ready at its start, then submits |
| EventLoop.NeverStuck | lib/co_context/io_context.cpp:108-142 | until it has stopped, the loop can move on, resume a task or handle a completion, or the kernel can post one |
| EventLoop.NeverBlocksForever | lib/co_context/detail/worker_meta.cpp:139-151 | whenever the loop blocks no task is ready and a completion is there or the kernel has a request to complete |
| EventLoop.StopsExactlyWhenDone | lib/co_context/io_context.cpp:90-106 | will_stop is set if and only if this pass handled nothing and ready queue, submissions and requests in flight are empty |
| EventLoop.StopsAfterEverything | lib/co_context/io_context.cpp:90-106 | when the loop decides to stop, every task ever spawned or forwarded has been resumed and every request's completion handled |
| EventLoop.StopIsFinal | lib/co_context/io_context.cpp:103-105 | after will_stop is set nothing is left and nothing comes |
| EventLoop.IdleLoopStops | lib/co_context/io_context.cpp:136-142 | once nothing is left the loop can only move on and has stopped after a bounded number of moves |
| LinkedIo.PackRoundTrip | include/co_context/detail/task_info.hpp:16-31 | tag and 8-aligned pointer are both recovered from the packed word, which is out of the reserved range |
| LinkedIo.OrAssociates | include/co_context/detail/lazy_io_awaiter.hpp:105-108 | or-ing a tag into the packed word is or-ing it into the tag |
| LinkedIo.OneResumes | include/co_context/detail/lazy_io_awaiter.hpp:118-135 | of all entries of a supported expression exactly the one of last_io resumes the coroutine |
| LinkedIo.OneChainIff | include/co_context/detail/lazy_io_awaiter.hpp:458-480 | all entries but the last are linked to the next exactly if no timeout is followed by another operand |
| LinkedIo.EntriesAre | include/co_context/detail/lazy_io_awaiter.hpp:89-135 | entry by entry: every operand but the last is linked and only stores its result, the last one resumes and is linked exactly if it is timed, a timer is linked to nothing |
| LinkedIo.LastIoIsLast | include/co_context/detail/lazy_io_awaiter.hpp:118-135 | last_io is the last entry that is not a timer |
| LinkedIo.TimeoutInTheMiddle | include/co_context/detail/lazy_io_awaiter.hpp:458-480 | `io && timeout(io) && io` is a supported expression whose entries are not one chain |
| LinkedIo.Worker.Build | include/co_context/detail/lazy_io_awaiter.hpp:89-135 | evaluating the expression leaves its entries in the queue, each with info, tag, link and skip bits as its place in the expression demands, returns last_io and counts the completions to come; they are one chain exactly if no timeout is followed by another operand |
| LinkedIo.Worker.NewTimeout | include/co_context/detail/lazy_io_awaiter.hpp:437-480 | the timed request has the link bit and tag 0, the timer neither link nor a resuming tag: skipped from kernel 5.17 on, tag 2 before |
| LinkedIo.Worker.HandleCqEntry | lib/co_context/detail/worker_meta.cpp:166-228 | told by the low bits of user_data: which coroutine becomes ready, where the result goes and how the count changes |
| LinkedIo.Worker.Reap | lib/co_context/detail/worker_meta.cpp:166-228 | completions of a chain in any order forward the coroutine once, when that of last_io comes, and every result is stored at the awaiter it belongs to |
| LinkedIo.AwaitChain | include/co_context/detail/lazy_io_awaiter.hpp:137-144 | from expression to resumption: exactly one resumption, with the result of the last awaiter, and nothing left to reap |
| WhenAll.OffsetOf | include/co_context/co/when_all.hpp:95-97 | a non-void task's offset is the position of its value in the result tuple |
| WhenAll.OffsetsIncrease | include/co_context/co/when_all.hpp:95-97 | offsets keep the order of the tasks, so no two share a slot |
| WhenAll.OffsetsAreOnto | include/co_context/co/when_all.hpp:95-97 | every slot belongs to some task |
| WhenAll.TaskGetsOn | include/co_context/co/when_all.hpp:30-46 | how far each task is follows from its own steps: it stores first and counts down then, each once |
| WhenAll.ParentGetsResumed | include/co_context/co/when_all.hpp:30-46 | every run can go on until the parent has been resumed |
| WhenAll.ParentResumesOnceWithAll | include/co_context/co/when_all.hpp:30-46 | the parent is resumed once, exactly when all tasks have counted down, and finds all values in order |
| WhenSome.StepInv | include/co_context/co/when_any.hpp:257-289 | every step keeps ranks, slots and wake-ups consistent |
| WhenSome.ParentResumesOnce | include/co_context/co/when_any.hpp:279-287 | the parent is resumed at most once and not before min_complete different tasks have finished |
| WhenSome.ParentIsResumed | include/co_context/co/when_any.hpp:257-289 | when all tasks are over it has been resumed, and the slots hold the first finishers in order |
| WhenSome.CompleteAtWakeIff | include/co_context/co/when_any.hpp:279-287 | what the resumed parent finds is complete exactly if no other claimant is still writing |
| WhenSome.AtomicClaimsAreComplete | include/co_context/co/when_any.hpp:194-195 | it always is when claim and write are not interleaved with another claim |
| WhenSome.ResumedTooEarly | include/co_context/co/when_any.hpp:279-287 | a run of two tasks in which it is not |
| WhenSome.LateTasksNeverRun | include/co_context/co/when_any.hpp:264-266 | a task first scheduled after enough others have finished never runs |
| WhenSome.AnyReturnsFirst | include/co_context/co/when_any.hpp:115-143 | `any` returns index and value of the first finisher, in every interleaving |

## Left out

- Weak memory orderings and fences: every atomic operation is one sequentially consistent step.
- Sections under a spinlock (`notifier_mtx` of the condition variable) are one step each; the mutual exclusion of `spinlock` itself is taken for granted.
- Reading `next` of a node after handing the node off (lib/co_context/co/condition_variable.cpp:88-94, include/co_context/shared_task.hpp:52-58): nodes are taken to stay readable during the walk; the walk of `notify_all` reads `next` in the step that hands the node over.
- `notify_all` is not part of `WaitLists`: no channel calls it.
- The pointers of the semaphore's and the shared task's waiter lists are sequences in their state machines; `WaiterChain.ReverseStack` covers the in-place reversal, which is the same code as in the mutex.
- The callback list in the stop state machine is a sequence; `StopList` shows on the heap that each critical section edits it that way.
- Overflow of the semaphore counter, of `ref_count_`, of `requests_to_reap` and of the 32-bit counters of `all`, `any` and `some` is not modelled.
- `stop_source` and `stop_token` ownership counts, moves and swaps.
- `when_ready()` of `shared_task`, which is an await that does not read the result; `SharedTaskHandle` is sequential, and `SharedTask` counts the handles.
- Generators: allocators, `elements_of` over plain ranges, and moving a generator while it is suspended in the middle.
- The rings with SQE128, CQE32 or IOPOLL; `__peek_cq_entry`, the waiting calls and the registration calls of `uring`; the overflow list of the kernel.
- The kernel: it consumes submissions, posts one completion per request that is not marked to skip it, and never posts one for a request that is.
- Several contexts: `ready_count > 1`, eventfd and message-ring spawning, `resume_on`, `detach()`.
- `get_free_sqe` with a full submission queue: its assertion is an obligation of the program.
- `all`, `any` and `some` of tasks that throw.
- net/, the `prep_*` and `lazy_*` wrappers, logging, configuration and build: nothing in them but field filling and system calls.
