# alterstack: a verified model of the run queue, the wait-list protocol and the futex handshake

alterstack runs coroutines ("unbound tasks") on OS threads ("runners"). A runnable task is kept in a
lock-free run queue, a waiting task in the wait list of an `Awaitable`, and a thread that has nothing to
run sleeps on a futex. The same `next` field links a task into a queue slot, a priority stack, a wait list
or a private list of the thread that is moving it, and it is rewritten in place all the time. This project
models that core and proves what keeps it together.

## How it is organised

The run queue is modelled twice.

* **One thread at a time, in place.** `BoundBuffer.dfy`, `LockFreeStack.dfy` and `LockFreeQueue.dfy` are
  classes over task objects with a mutable `next` (`Tasks.dfy`). Every method is proved against a function
  on plain values (`BufferSpec.dfy`, `QueueSpec.dfy`), and the user-visible promises (exact spreading,
  drain, priorities in order, bounded bypass, FIFO, slots filled in turn, the flag) are lemmas about those
  functions (`BufferSpec.dfy`, `QueueSpec.dfy`, `BufferOrder.dfy`, `QueueOrder.dfy`).
* **Any number of threads, one atomic operation per step.** `QueueMachine.dfy` has a program counter for
  every load, exchange, compare-exchange, fetch-add and `next` access of the code. `QueueInvariant.dfy`
  and `QueueSteps.dfy` prove the invariant of every step; `QueueTheorems.dfy`, `QueueBag.dfy`,
  `QueueScan.dfy` and `QueuePuts.dfy` draw the conclusions. `Links.dfy` holds the theory of chains in a heap,
  `Scan.dfy` the probe loop that both models share.

The two agree: `QueueSolo.dfy` and `QueueAgree.dfy` prove that a call which alone makes steps in the second
model does exactly what the value functions of the first one say, whatever calls of other threads are
suspended in between.

The protocols are step machines with any number of participants:

* `Futex.dfy` has the operations of `wait` and `notify`; `WorkerFutex.dfy` runs them with M consumers and
  N producers, `ScheduleLoop.dfy` with one task's `do_schedule` loop against any number of releasers.
  `WorkerSleep.dfy` and `ScheduleSleep.dfy` prove that each gets somewhere: who has nothing to do sleeps, and
  who is woken works.
* `AwaitableMachine.dfy` has one awaitable under concurrent insertions and releases; `AwaitableCalls.dfy`
  follows each call to its end, and `AwaitableLinks.dfy` the link of a task whose insertion is refused.
* `HandoffMachine.dfy` has any number of runners that wait, release, schedule, jump, start and finish
  tasks; `HandoffInvariant.dfy`, `HandoffSteps.dfy` and `HandoffTheorems.dfy` prove where every task is,
  `HandoffBlocking.dfy` who may block and when a `wait` comes back too early, `HandoffProgress.dfy` who must
  leave and where to, and `HandoffCalls.dfy` what each call does if no other runner steps in.
* `WakeUp.dfy` is the walk over a released wait list, in place, on top of the `LockFreeQueue` class;
  `WakeOrder.dfy` says which tasks it hands over and in which order.

`Basics.dfy` holds what several modules share.

All machines are sequentially consistent, and a weak compare-exchange may fail spuriously at any time. The
32-bit wrap of the positions and of the sleeper counter is written out.

## Where the code and its documentation disagree

The model follows the code.

* `include/alterstack/awaitable.hpp:63` says that `wait` returns when `release` is called. A thread bound
  task that switched to another task can be switched back to while it still waits
  (`src/scheduler.cpp:252-257`), and then `do_schedule` returns. `HandoffBlocking.NativeWaitReturnsEarly`
  gives such a run, with one thread, one coroutine and no race. The exact condition is that `get_item`
  answers a task while this one is still Waiting: `ScheduleLoop.WaitReturnsEarlyExactly` proves that a run
  leads up to an early return if and only if this happened in it.
* `src/scheduler.cpp:265` demands that a task handed to the run queue is in no queue. A release can mark a
  task Running between the task's own insertion (`src/awaitable.cpp:60`) and the state check after its jump
  (`src/scheduler.cpp:142-145`), and then both sides queue it. `HandoffTheorems.RaceIsReachable` shows that
  this happens with two threads and one awaitable; `HandoffTheorems.OrderlyExactlyUntilRaced` proves that
  order is kept exactly until then. After such a race two runners can execute one task, and the remark of
  `src/scheduler.cpp:69` that only a bound task gets to the futex fails too: see
  `HandoffBlocking.OnlyNativesBlock` and `HandoffBlocking.RaceLetsCoroutineBlock`.
* `include/alterstack/lock_free_stack.hpp:70` asserts that a pushed item has a null link. An insertion that
  is refused at its compare-exchange leaves a stale link behind (`src/awaitable.cpp:57`,
  `src/awaitable.cpp:67-73`). `AwaitableLinks.StaleLinkIsReachable` gives such a run;
  `AwaitableLinks.RejectedLink` says exactly which link is left: untouched if the first load already found
  the awaitable finished, otherwise the head last expected, so null if and only if that head was null.
  `push` is therefore modelled as overwriting whatever link there is.

## Model

| member | source | states |
|---|---|---|
| `QueueSteps.StepKeeps` | include/alterstack/bound_buffer.hpp:88-262 | every atomic step of every thread keeps an account in which each item has exactly one place (outside, the list of one slot or stack, or one thread's private segment), every shared list is a null-terminated chain and private segments have the shape the program counter needs |
| `QueueTheorems.Conservation` | include/alterstack/lock_free_queue.hpp:66-113 | for any number of threads, calls and schedules, in every reachable state each item is in exactly one place and shared lists are acyclic, null-terminated and disjoint |
| `QueueTheorems.TouchesOnly` | include/alterstack/bound_buffer.hpp:88-262 | inside a call a step writes no link but those of `Touches`, and the links of all other items do not influence it |
| `QueueTheorems.OwnerOnly` | include/alterstack/lock_free_stack.hpp:67-91 | the item whose link a step reads or writes belongs to the stepping thread: two threads never touch the same link, and no link in a shared list or outside the queue is touched |
| `QueueTheorems.SpliceExact` | include/alterstack/bound_buffer.hpp:205-262 | a successful compare-exchange of push, put_priority_item or store_in_occupied_slot makes the shared list exactly the private segment followed by the list there at that moment, whatever failures or changes of that list came before; no other cell changes |
| `QueuePuts.PutLandsInItsCell` | include/alterstack/lock_free_queue.hpp:100-113 | in every run, however often its exchange fails and whatever the others do, the step in which a put takes effect makes its item the head of the stack its priority names (3 and above are one), or for priority 0 of the slot the get position named when the call read it; every other cell is as before |
| `QueuePuts.AppendKeepsCell` | include/alterstack/bound_buffer.hpp:216-224 | from the exchange on, store_in_occupied_slot keeps its slot and the displaced list through every failed compare-exchange, until the one that succeeds puts that list back into that slot |
| `QueueBag.Simulates` | include/alterstack/lock_free_queue.hpp:66-113 | refinement to a bag: a put takes effect at its successful compare-exchange, a get at its non-null exchange with an item that is in the bag, "empty" changes nothing, and all redistribution of tails is stuttering |
| `QueueBag.QuietBag` | include/alterstack/lock_free_queue.hpp:52-55 | while no call is in progress, the bag is exactly what the four slots and three stacks hold |
| `QueueBag.RunBalanced` | include/alterstack/lock_free_queue.hpp:66-113 | over every run each item was given to put_item as often as get_item returned it, plus one while it is in a call or in the bag: nothing is lost or returned twice between puts |
| `QueueScan.GetScanBounded` | include/alterstack/bound_buffer.hpp:92-121 | a get_item scan disturbed by K changes of the get position makes at most 4(K+1) probes, the one about to be made and the one that succeeds included |
| `QueueScan.GetScanAnswer` | include/alterstack/bound_buffer.hpp:92-121 | when the scan gives up, its last four probes hit four different slots under one position value, which is still the value |
| `QueueScan.PutScanBounded` | include/alterstack/bound_buffer.hpp:132-156 | the same bound for store_in_empty_slot and the put position, the successful probe included |
| `QueueScan.PutScanAnswer` | include/alterstack/bound_buffer.hpp:132-156 | the "full" answer of store_in_empty_slot rests on four probes of four different slots under one unchanged put position |
| `QueueAgree.SoloGet` | include/alterstack/lock_free_queue.hpp:66-93 | a call of get_item that alone makes steps, whatever other calls are suspended, ends with the answer and the queue of `QueueSpec.Get` |
| `QueueAgree.SoloPut` | include/alterstack/lock_free_queue.hpp:100-113 | a call of put_item that alone makes steps leaves the queue of `QueueSpec.Put`, for every priority |
| `QueueAgree.SoloGetFinds` | include/alterstack/lock_free_queue.hpp:66-93 | with no other call in progress, such a get answers "empty" if and only if the bag is empty |
| `QueueSolo.TailTurns` | include/alterstack/bound_buffer.hpp:163-183 | the atomic steps of store_tail, from any loop counter on, spread the private list as `BufferSpec.Spread` says |
| `QueueSolo.EmptyTurns` | include/alterstack/bound_buffer.hpp:129-157 | the atomic steps of store_in_empty_slot store the list where `BufferSpec.StoreEmpty` says, or find all slots occupied |
| `QueueSolo.OccTurns` | include/alterstack/bound_buffer.hpp:205-225 | the atomic steps of store_in_occupied_slot append the list, which may be null, as `BufferSpec.StoreOccupied` says |
| `Tasks.FindLast` | include/alterstack/bound_buffer.hpp:190-199 | find_last_item_in_list returns the last task of the list |
| `BoundBuffer.BoundBuffer.constructor` | include/alterstack/bound_buffer.hpp:71-77 | a new buffer is empty and both positions are 0 |
| `BoundBuffer.BoundBuffer.StoreInEmptySlot` | include/alterstack/bound_buffer.hpp:129-157 | the whole list goes to the first empty slot from the put position on, which advances past it; false and no change exactly when no slot is empty |
| `BoundBuffer.BoundBuffer.SwapBack` | include/alterstack/bound_buffer.hpp:216-224 | however often the compare-exchange fails spuriously, the slot ends up heading the displaced list followed by the new one |
| `BoundBuffer.BoundBuffer.StoreInOccupiedSlot` | include/alterstack/bound_buffer.hpp:205-225 | the list, which may be empty (null), is appended to the list of the slot at the put position, which advances by one |
| `BoundBuffer.BoundBuffer.StoreRound` | include/alterstack/bound_buffer.hpp:166-181 | one round of store_tail: nothing is left to store, or the first task alone goes to an empty slot, or else the whole rest is relinked and appended to one slot; either way the spreading still leads to the same buffer |
| `BoundBuffer.BoundBuffer.StoreTail` | include/alterstack/bound_buffer.hpp:163-183 | a list of any length, null included, is spread as `Spread` says and no other task moves |
| `BoundBuffer.BoundBuffer.GetItem` | include/alterstack/bound_buffer.hpp:88-122 | the first task of the first occupied slot from the get position on is returned with a null link, the rest of its list is spread, the flag is set exactly when there is a rest; null and no change exactly when the buffer is empty |
| `BoundBuffer.BoundBuffer.PutItemsList` | include/alterstack/bound_buffer.hpp:235-243 | a list goes undivided to an empty slot, or else behind the list at the put position |
| `BoundBuffer.BoundBuffer.PutPriorityItem` | include/alterstack/bound_buffer.hpp:249-262 | an item, whatever its link was, is put in front of the list at the get position, however often the compare-exchange fails spuriously |
| `LockFreeStack.LockFreeStack.Push` | include/alterstack/lock_free_stack.hpp:67-81 | the item, whatever its link was, is put in front of the stack, however often the compare-exchange fails spuriously; true exactly when the stack was empty |
| `LockFreeStack.LockFreeStack.PopList` | include/alterstack/lock_free_stack.hpp:87-91 | the whole list is detached, latest first; null exactly when the stack was empty |
| `LockFreeQueue.LockFreeQueue.PutItem` | include/alterstack/lock_free_queue.hpp:100-113 | the four linked structures together change as `QueueSpec.Put` says, with priorities above 3 treated as 3; no link but the item's own is written |
| `LockFreeQueue.LockFreeQueue.GetItem` | include/alterstack/lock_free_queue.hpp:66-93 | answer, flag and the four linked structures are those of `QueueSpec.Get`; the answer is unlinked and in the queue no more |
| `LockFreeQueue.LockFreeQueue.PopFirst` | include/alterstack/lock_free_queue.hpp:74-80 | the first stack that is not empty is emptied and its list returned |
| `LockFreeQueue.LockFreeQueue.StoredOnce` | include/alterstack/lock_free_queue.hpp:52-55 | in every state between two operations no task is stored twice |
| `BufferSpec.GetKeeps` | include/alterstack/bound_buffer.hpp:88-122 | get_item finds nothing exactly when the buffer is empty; otherwise it removes the task it returns and nothing else |
| `BufferSpec.PutKeeps` | include/alterstack/bound_buffer.hpp:235-262 | put_items_list and put_priority_item add exactly what they are given |
| `BufferSpec.SpreadsExactly` | include/alterstack/bound_buffer.hpp:88-122 | if get_item detaches a list with t successors while e slots, counting the one just emptied, are empty, exactly min(4, 4-e+t) slots are occupied afterwards, the call of store_in_occupied_slot with null included |
| `BufferOrder.FreshIsFifo` | include/alterstack/bound_buffer.hpp:88-157 | with single items and at most four outstanding, a fresh buffer answers every history like an ideal first-in first-out queue, across the wrap of both positions |
| `BufferOrder.FifoGet` | include/alterstack/bound_buffer.hpp:88-122 | such a buffer returns its oldest item and goes on holding the others in order |
| `BufferOrder.PutsFillInTurn` | include/alterstack/bound_buffer.hpp:129-157 | after any number of single puts into a fresh buffer, slot k holds, in arrival order, exactly the items whose index is k modulo 4, and list lengths differ by at most one |
| `BufferOrder.ResidueAt` | include/alterstack/bound_buffer.hpp:190-243 | what "the items whose index is k modulo 4, in order" means, index by index |
| `QueueSpec.PutStores` | include/alterstack/lock_free_queue.hpp:100-113 | put_item adds exactly its item, for every priority |
| `QueueSpec.GetTakesOne` | include/alterstack/lock_free_queue.hpp:66-93 | get_item answers null exactly when nothing is stored, otherwise removes its answer and nothing else, and when it sets the flag something is still stored (`QueueSpec.FlagIsExact` says when it is set) |
| `QueueSpec.FlagIsExact` | include/alterstack/lock_free_queue.hpp:66-93 | when the flag is set: for an answer from the buffer, if and only if the list of the slot served, the first occupied one from the get position, had a second item; for an answer from a stack, if and only if it leaves something in the buffer |
| `QueueOrder.DrainsInOrder` | include/alterstack/lock_free_queue.hpp:74-89 | from every state, gets return all that was in the buffer first, then all of the first stack, then all of the second, then all of the third, each item once, and then null |
| `QueueSpec.DrainReturnsAll` | include/alterstack/lock_free_queue.hpp:66-93 | from every state with n items stored, n gets return each stored item once, and the next get answers null |
| `QueueSpec.PriorityItemIsNext` | include/alterstack/lock_free_queue.hpp:100-107 | from every state, an item put with priority 0 is what the next get returns, and everything stored before is stored afterwards |
| `QueueSpec.BoundedBypass` | include/alterstack/lock_free_queue.hpp:66-113 | once an item is in the buffer and no put of priority 0 follows, it is among the next n items returned, n being the number of items the buffer held, however many other puts are interleaved |
| `WorkerFutex.StepKeeps` | include/alterstack/futex.hpp:101-134 | every step of wait and notify keeps the sleeper counter exact and pending work covered |
| `WorkerFutex.NoLostWakeup` | include/alterstack/futex.hpp:35-60 | for M consumers and N producers, in every reachable state with pending work and all consumers asleep some producer still has a store or a wake-up due |
| `WorkerFutex.DueIsDelivered` | include/alterstack/futex.hpp:126-134 | let that producer run alone, and as many consumers as it asked for, or all, leave their sleep with the flag raised, and nothing else changes |
| `Futex.WaitAlone` | include/alterstack/futex.hpp:101-119 | an undisturbed wait takes a raised flag and returns, not counted, and with the flag down counts itself and sleeps |
| `WorkerSleep.SleepsWithoutWork` | include/alterstack/futex.hpp:35-60 | a consumer that finds the queue empty and the flag down blocks within four turns of its own, whatever the other threads do in between short of enqueueing or raising the flag |
| `WorkerSleep.WaitHasReason` | include/alterstack/futex.hpp:101-119 | in every run a wait returns only because it took a raised flag, or because FUTEX_WAIT found the flag raised, or because a producer woke it or its sleep was interrupted |
| `WorkerSleep.EnqueueWakes` | include/alterstack/futex.hpp:126-134 | a producer that enqueues while all consumers sleep wakes, by its own turns alone, as many as it asked for, or all; nothing else changes |
| `ScheduleLoop.NoLostRelease` | src/scheduler.cpp:53-79 | a thread bound task asleep on its futex after its state was set to Running always has a releaser with a wake-up still due, over all interleavings and with stale notifications of earlier releases |
| `ScheduleLoop.ReleaseIsDelivered` | src/scheduler.cpp:276-281 | steps of that releaser and uninterrupted steps of the task, and nobody else's, bring the task back to its own code, Running |
| `ScheduleSleep.WaitBlocks` | src/scheduler.cpp:53-79 | a waiting thread bound task with nothing to run blocks on its futex within 14 own turns, whatever flag earlier releases have left, unless a task is found, a release comes or the flag is raised |
| `ScheduleSleep.ReleaseResumes` | src/scheduler.cpp:268-281 | from the moment a release takes such a task out of the wait list, the steps of that releaser and of the task are enough to bring it back to its own code, Running |
| `ScheduleSleep.ScheduleEnds` | src/scheduler.cpp:53-82 | schedule of an unbound task that one runner executes ends within four own steps: with a switch, or back in its own code, and then it is Running |
| `ScheduleLoop.WaitReturnsReleased` | src/awaitable.cpp:80-86 | in every run in which get_item never answered a task while this one was Waiting, wait of a thread bound task returns only after a release marked it Running |
| `ScheduleLoop.WaitReturnsEarlyExactly` | src/scheduler.cpp:53-82 | a run leads up to an early return of wait if and only if get_item answered a task in it while this one was still Waiting |
| `ScheduleLoop.EarlyStepExactly` | src/scheduler.cpp:80-81 | the only step that ends a call of a waiting bound task early is the return from another task |
| `HandoffBlocking.NativeWaitReturnsEarly` | src/scheduler.cpp:252-257 | the early return happens: with one runner and no race, wait of a native task is back in its code through the fallback, the task Waiting and still in the wait list |
| `HandoffBlocking.AnsweredWaitMayReturnEarly` | src/scheduler.cpp:231-260 | and whenever, in an unraced run, a waiting native task is answered a coroutine and there is an awaitable without waiters, that can happen without any other runner moving |
| `HandoffBlocking.EarlyExactlyFromSwitch` | src/scheduler.cpp:136-147 | in unraced runs a call of wait or schedule ends early exactly when the step is the one that resumes a native task that still waits after a switch |
| `ScheduleLoop.UnboundNeverBlocks` | src/scheduler.cpp:231-260 | an unbound task that one runner executes at a time never blocks on the futex, although its state may turn from Waiting to Running between any two reads |
| `HandoffBlocking.OnlyNativesBlock` | src/scheduler.cpp:65-75 | when that is so: in every run without a race only native tasks get to the futex |
| `HandoffBlocking.RaceLetsCoroutineBlock` | src/scheduler.cpp:69-75 | and not otherwise: a run, necessarily raced, in which a coroutine gets there |
| `ScheduleLoop.FinishedSwitchesAway` | src/task.cpp:124-129 | a finished unbound task that one runner executes at a time and that calls schedule reaches switch_to within three of its own steps |
| `HandoffProgress.DepartingReachesJump` | src/scheduler.cpp:231-260 | in every run without a race, an unbound task that calls schedule while it waits or when it has finished reaches the jump within three turns of its runner, whatever the others do; and the jump goes to the runner's native task unless the queue answered another one first |
| `AwaitableMachine.ReleaseIsOneShot` | src/awaitable.cpp:41-111 | under any interleaving of insertions and releases exactly the first successful release detaches the list; it holds each task whose insertion returned true once, latest first, and no other; true answers come before it and false ones after it; the pair is (null, finished) from then on |
| `AwaitableCalls.ReleaseFinishes` | src/awaitable.cpp:88-111 | in every run, once any call of release has returned, whether or not anybody waited and whoever did the work, the pair is (null, finished) for good |
| `AwaitableCalls.RefusedAfterRelease` | src/awaitable.cpp:41-48 | and an insertion that looks at the awaitable after that is refused at once, the task, its link and its state as they were |
| `AwaitableCalls.InsertGoesOn` | src/awaitable.cpp:56-76 | nothing but an answer ends an insertion, true only while the awaitable is open; a failed exchange starts over with the head that is there, or gives up if it is finished |
| `AwaitableCalls.InsertAlone` | src/awaitable.cpp:41-78 | undisturbed, an open awaitable takes the task: it heads the list, linked to the old head and Waiting, and nothing else changes |
| `AwaitableCalls.ReleaseGoesOn` | src/awaitable.cpp:88-107 | a call of release goes on, with the pair it has just seen, until the awaitable is finished |
| `AwaitableMachine.FinishedForever` | src/awaitable.cpp:88-107 | once finished, the pair never changes again |
| `AwaitableMachine.UnreleasedList` | src/awaitable.cpp:41-78 | before any release the wait list is exactly the tasks whose insertion returned true, all of them Waiting |
| `AwaitableLinks.RejectedLink` | src/awaitable.cpp:44-76 | the link a refused insertion leaves: untouched if the first load found the awaitable finished, otherwise the head expected at the lost compare-exchange, so null if and only if that head was null |
| `AwaitableLinks.StaleLinkIsReachable` | src/awaitable.cpp:57-73 | a run after which a refused task is Running, in no wait list and has a link that is not null |
| `WakeUp.AddWaitingListToRunning` | src/scheduler.cpp:268-306 | for every acyclic wait list every task is set Running, each bound task is notified once, and the queue receives exactly the unbound tasks, each once: those found with a context in list order, then the others last one first; a task that had a context when the walk began is found with one; all of it although the queue overwrites `next` on the way |
| `WakeUp.FirstPass` | src/scheduler.cpp:270-293 | what the first loop hands over, puts aside and notifies |
| `WakeUp.EnqueueDelayed` | src/scheduler.cpp:295-305 | every task put aside gets to the queue, in the order of the private list, with a context |
| `WakeUp.Enqueue` | src/scheduler.cpp:200-206 | may be called only for an unlinked, unbound, Running task whose context has been read non-null and that is in no queue; then it is queued with its priority |
| `WakeOrder.EachOnce` | src/scheduler.cpp:282-292 | handed over at once or put aside: together these are the unbound tasks, each exactly once |
| `HandoffSteps.StepKeeps` | src/scheduler.cpp:53-147 | every step of any runner that does not race keeps the invariant that accounts for control and linkage of every task |
| `HandoffTheorems.OrderlyUntilRaced` | src/scheduler.cpp:231-306 | on any number of runners, until a release marks Running a task inside its insertion window, every unbound task is in exactly one place (executing, in hand-off, queued and Running with a context, in one wait list, with one release, or finished), and no jump targets a null context or a finished task |
| `HandoffCalls.WaitAlone` | src/awaitable.cpp:41-86 | undisturbed, wait on an open awaitable leaves the task Waiting, without context, in front of the list, and its runner in schedule; on a finished one it changes nothing |
| `HandoffCalls.WaitRefused` | src/awaitable.cpp:56-76 | an exchange that fails without cause is repeated, one that lost to a release ends with the task Running, with the fake context and in no list |
| `HandoffCalls.ScheduleAlone` | src/scheduler.cpp:231-260 | for every kind of task and thread, state and answer of the queue: which task schedule switches to, or else that it returns to a Running task and takes a native one to the futex |
| `HandoffCalls.SwitchAlone` | src/scheduler.cpp:111-147 | a switch makes the new task current and takes its context away, saves the old one's context, and queues the old task exactly if it is an unbound task that is Running |
| `HandoffCalls.ReleaseAlone` | src/scheduler.cpp:268-293 | undisturbed, release of an open awaitable closes it, takes its list, marks every task Running, queues the unbound ones that have a context and puts the others aside, last one first; of a finished one it does nothing |
| `HandoffCalls.DelayedAlone` | src/scheduler.cpp:295-305 | a task put aside is queued once it has a context, and not before |
| `HandoffTheorems.FinishedForever` | src/task.cpp:122-129 | a finished unbound task that its runner has left is never resumed: in every unraced continuation no runner executes it or switches to it, and it stays Finished |
| `HandoffTheorems.OrderlyExactlyUntilRaced` | src/scheduler.cpp:142-145 | and exactly until then: an unraced step keeps order in every unraced continuation, and after a racing step some continuation breaks it |
| `HandoffTheorems.RaceDoublesTask` | src/scheduler.cpp:276-291 | from every orderly state, a racing release can be continued so that one task is in the run queue twice |
| `HandoffTheorems.RaceIsReachable` | src/awaitable.cpp:56-60 | two threads and one awaitable are enough for the race |

## Left out

- Weak memory ordering: all machines are sequentially consistent, so the acquire, release and relaxed annotations are not justified here (in particular not the store-then-load pair in `Futex::notify`).
- Object lifetime: the destructors of `Task`, `BoundTask` and `Awaitable` and the question of when a task object may be freed.
- The `BgRunner` and `BgThread` pool: the `sleep_count` gate before the futex, polling, starting and stopping threads. Only the runner type that `get_next_task` asks for is kept.
- Real time: `sleep_for` and `yield` between two reads of a null context become "wait until the context is not null".
- Stacks, memory protection, thread names, the spin lock and the context-jump library; a jump is "save the old context, install the new one".
- The assertion of `LockFreeStack::push` (see above), cache-line alignment, and exceptions that leave a task's function.
- Agreement of the two models of the run queue while several calls make steps at once: there the concurrent model refines a bag, and the order in which `QueueSpec` answers is not promised.
- The `have_more` flag in the concurrent queue; in the sequential one `QueueSpec.FlagIsExact` says exactly when it is set; as `include/alterstack/lock_free_queue.hpp:61-62` admits, it can be unset while other slots hold items.
- BoundBuffer.BoundBuffer.GetItem: used by one thread at a time, like every method of the three classes; interference is the subject of `QueueMachine`. The same holds for LockFreeQueue.LockFreeQueue.GetItem and LockFreeStack.LockFreeStack.Push.
- WakeUp.AddWaitingListToRunning: the walk has the queue to itself and other threads only publish contexts; releases that race with the waiting task are in `HandoffMachine`, concurrent use of the queue in `QueueMachine`. `notify` is counted here and executed in `ScheduleLoop`.
- WakeUp.Enqueue: puts the task into the run queue; the call of `bg_runner_.notify` after it belongs to the pool and is not modelled.
- HandoffBlocking.RaceLetsCoroutineBlock: one run, not every raced run; a race need not lead there.
- WorkerFutex.NoLostWakeup: at least one and fewer than 2^32 consumers, because the sleeper counter wraps; a producer enqueues something and wakes at least one, so `notify` with a count of zero or less is not modelled.
- HandoffTheorems.OrderlyUntilRaced: assumes that `wait` is called only in state Running; the run queue is the bag of `QueueBag`, a wait list changes in one step as `AwaitableMachine` shows, and blocking on the futex is a step that may end at any time, since `ScheduleLoop` treats it exactly.
- AwaitableMachine.ReleaseIsOneShot: assumes that a task is inserted only while it is in no wait list; the pair is compared field by field, without the padding bytes the real compare-exchange also compares, and `m_context` is left to `HandoffMachine`.
- ScheduleLoop.NoLostRelease: follows one task that one runner executes; what its reads of the run queue and of the native task answer, and when it is switched back to, is a free choice. `HandoffBlocking` proves in the machine of all runners that an early return really occurs, and that one runner at a time is guaranteed in unraced runs.
- BufferOrder.FreshIsFifo: beyond four outstanding items order is not promised by the code and not stated.
