# Six cores of a collection of C++ and C exercises, modelled and proved in Dafny

The repository holds small exercises; six of them contain a real protocol or algorithm. Each is modelled here in
modules of its own.

- **The manager/worker handshake over two mutexes and two condition variables** (`CvHandshake`, `CvInvariant`,
  `CvSafety`, `CvCalls`, `CvHooks`, `CvProgress`, `CvSpurious`). One manager thread starts, stops, quits and deletes
  one worker thread. Both threads are program counters whose values are source lines; every line is one atomic step,
  every interleaving is allowed, and every wait with a predicate may wake up spuriously. A `unique_lock` that is
  locked twice or unlocked while not owned moves the worker to a state `THREW`, which is proved unreachable.
  Assumptions: there is one manager thread, reads and writes of the flags and of `state_` are atomic, the hooks
  return, and the bare wait at ThreadManager.cpp:212 does not wake up spuriously. Section 30.5.1 of ISO/IEC 14882:2011
  allows it to; `CvSpurious` proves that return values mean what they should, and that calls return, exactly under
  this assumption: without it `RunWorker` can return true for a worker that is still Inited, and a later `QuitWorker`
  can then wait for ever. That calls return is proved for runs in which only finitely many wakeups are spurious and
  the manager is not kept from running for ever.
- **The same service on two semaphores** (`Hooks`, `SemWorker`, `SemManager`). The worker thread is a step function
  over its source lines; `ThreadManager` is a class whose methods update the map of workers in place. Between two
  calls and between any two atomic actions of a call the threads of all workers take any number of steps in any order.
  Every `NewWorker` is given a fresh worker object.
- **`CvSemaphore`** (`CvSemaphore`, `SemaphoreCalls`), the repository's semaphore built from a mutex and a condition
  variable, for any number of threads, with spurious wakeups.
- **The ring buffer and the event queue** (`RingBuffer`, `EventQueue`, `QueueCalls`, `BatchSizes`). The ring buffer is
  a class over an array that implements a bounded first-in first-out queue; any number of producers and consumers
  share that queue.
- **Bit counting** (`Bits`, `BitCount`). Words are natural numbers below 2^32 with explicit wrap-around. The general
  lemmas about fields and digit sums hold for every width.
- **The balanced binary search tree** (`BalancedTree`) and **the parrot driver** (`Parrot`), whose length table and
  byte FIFO must stay in step. Assumptions for the driver: copies are full and without faults, callbacks do not
  overlap, and, where a lemma says `SysfsCalls`, a written message has at least one byte.

The two thread protocols, the semaphore and the queue's callers are transition systems over values, because a Dafny
class cannot be stepped by two threads at once; what the source updates in place without concurrency is a class.

What else was found:

- The queue loses wakeups when batches of different sizes are mixed: nobody works any more, although the predicate of
  a sleeping thread holds. For any number of threads and queues of all capacities no wakeup is lost if and only if all
  nonempty batches that are put have the size of all nonempty batches that are got (`BatchSizes.AnyCapacity`); when
  producers and consumers share a set of sizes, the condition is exact at every single capacity
  (`BatchSizes.SafeBatchSizes`). 13_EventQ/main.cpp:38 and :62 use one size.
- The parrot driver does not use the `length` of a read. That no read returns more than `length` bytes holds in all
  runs if and only if `length` is at least the size of the FIFO (`Parrot.LengthDecides`).
- Nor does the driver check for an empty message. The kernel's sysfs does not pass on a write of no bytes, so every
  queued message has a byte; with that, the queue comes back whole in every run (`Parrot.QueueComesBack`) and a read
  of no bytes means the end of the file (`Parrot.EndOfFileMeans`). The driver depends on it: called directly with
  `count == 0`, the callback would fill the table with messages that no read removes (`Parrot.SysfsDecides`).
- The state diagram of 08_Thread/manager_worker/05_cache_req_during_init_sem/README.md shows an edge from Initing to
  Running. The code always passes through Inited (`SemWorker.StateMoves`), and it has no Quit state.
- The predicate of the wait at ThreadManager.cpp:143 of the condition-variable version is already true when the wait
  is reached, so `QuitWorker` does not wait for the stop there (`CvSafety.StopWaitNeverWaits`). The worker still never
  goes straight from Running to Quit (`CvSafety.StateMoves`).

## Model

| member | source | states |
|---|---|---|
| CvInvariant.WorkerKeepsCore | 08_Thread/manager_worker/04_cache_req_during_init_cv/ThreadWorker.cpp:68-159 | every line of the worker thread keeps the invariant on lock owners, flags, states and notifications still to come |
| CvInvariant.ManagerKeepsCore | 08_Thread/manager_worker/04_cache_req_during_init_cv/ThreadManager.cpp:65-267 | every line of the four manager calls keeps that invariant |
| CvInvariant.WorkerStepEffect | 08_Thread/manager_worker/04_cache_req_during_init_cv/ThreadWorker.cpp:92-155 | the worker never writes a request flag, and changes its state only along six edges, each under the flags that ask for it |
| CvInvariant.ManagerStepEffect | 08_Thread/manager_worker/04_cache_req_during_init_cv/ThreadWorker.h:75-77 | the manager never writes the state; while the worker initialises it changes the flags only by accepting one request, and not at all while the worker owns the response mutex |
| CvSafety.NextKeepsInv | 08_Thread/manager_worker/04_cache_req_during_init_cv/ThreadWorker.cpp:68-159 | the invariant is inductive over the interleaved system, with spurious wakeups and new calls |
| CvSafety.RunsHaveInv | 08_Thread/manager_worker/04_cache_req_during_init_cv/ThreadWorker.cpp:68-159 | every state of every run has the invariant |
| CvSafety.ExactOwnership | 08_Thread/manager_worker/04_cache_req_during_init_cv/ThreadWorker.cpp:105-158 | no lock is taken twice or released while not owned; at lines 117 and 151 the response mutex is owned if and only if the state is Initing; line 105 is reached with the request mutex; a first inner test finds `to_run_` set; the thread ends with no lock |
| CvSafety.LockOrder | 08_Thread/manager_worker/04_cache_req_during_init_cv/ThreadManager.cpp:186-217 | locks are taken response first: who wants the response mutex or sleeps on its condition variable does not own the request mutex |
| CvSafety.BareWait | 08_Thread/manager_worker/04_cache_req_during_init_cv/ThreadManager.cpp:204-212 | no late notification of lines 124, 140 or 158 is outstanding when a run request is issued, and only line 124, after the change to Running, ends the wait without a predicate |
| CvSafety.StateMoves | 08_Thread/manager_worker/04_cache_req_during_init_cv/ThreadManager.cpp:134-163 | over every run the state moves only from Initing to any other, between Inited and Running, and from Inited to Quit |
| CvSafety.StopWaitNeverWaits | 08_Thread/manager_worker/04_cache_req_during_init_cv/ThreadManager.cpp:142-143 | in every run the predicate of this wait holds when the manager gets there, and the manager does not sleep in it |
| CvSafety.ReturnsMean | 08_Thread/manager_worker/04_cache_req_during_init_cv/ThreadManager.cpp:65-267 | from the return of a call to the next call: which states are answered with true and with false, that a true answer means Running after Run from Inited, Inited after Stop from Running, Quit after Quit from Inited or Running, and an ended thread after Delete |
| CvSafety.InitDecision | 08_Thread/manager_worker/04_cache_req_during_init_cv/ThreadWorker.cpp:79-128 | for any requests accepted while Initing, the next state is Quit if one of them was quit, else Running if the last run or stop request was run, else Inited |
| CvSafety.DecisionIsAtomic | 08_Thread/manager_worker/04_cache_req_during_init_cv/ThreadWorker.cpp:79-95 | from the test of line 85 until the state changes, no request is accepted and no flag changes |
| CvCalls.CallsReport | 08_Thread/manager_worker/04_cache_req_during_init_cv/ThreadManager.cpp:104-267 | in every run every returned Run, Stop or Quit call has left its outcome, judged by the state in which it first owned the response mutex: Run returns true exactly from Initing and Inited, Stop from Initing and Running, Quit from any state but Quit; a request made while Initing is cached, and any other accepted one is carried out |
| CvCalls.DeletesReport | 08_Thread/manager_worker/04_cache_req_during_init_cv/ThreadManager.cpp:65-102 | in every run every returned Delete call has answered true and removed a worker whose thread has ended in state Quit |
| CvHooks.HookLanguage | 08_Thread/manager_worker/04_cache_req_during_init_cv/ThreadWorker.cpp:75-147 | in every run the hooks called are a prefix of Init (Run+ Stop)* Deinit |
| CvHooks.StatesFollowHooks | 08_Thread/manager_worker/04_cache_req_during_init_cv/ThreadWorker.cpp:75-155 | in every run Init has been called before the state leaves Initing, Stop is the last hook when the state goes from Running to Inited, and Deinit when it is Quit |
| CvHooks.RunIsCalled | 08_Thread/manager_worker/04_cache_req_during_init_cv/ThreadWorker.cpp:105-128 | a running worker that is not told to stop calls `Run` after at most two of its steps, again and again |
| CvProgress.NoDeadlock | 08_Thread/manager_worker/04_cache_req_during_init_cv/ThreadManager.cpp:186-264 | in every run, while a call is in flight, the manager or the worker can take a step |
| CvProgress.ManagerRank | 08_Thread/manager_worker/04_cache_req_during_init_cv/ThreadManager.cpp:65-267 | each manager step brings the call closer to its return |
| CvProgress.WorkerRanks | 08_Thread/manager_worker/04_cache_req_during_init_cv/ThreadWorker.cpp:79-158 | so does each worker step, except for rounds of the run loop, during which the manager can step |
| CvProgress.EveryCallReturns | 08_Thread/manager_worker/04_cache_req_during_init_cv/ThreadManager.cpp:65-267 | in every infinite fair run every Run, Stop, Quit and Delete call returns |
| CvSpurious.BareWaitDecides | 08_Thread/manager_worker/04_cache_req_during_init_cv/ThreadManager.cpp:202-216 | in every run every return value means what it should, if and only if the bare wait of line 212 may not wake up spuriously |
| CvSpurious.BareWaitDecidesReturn | 08_Thread/manager_worker/04_cache_req_during_init_cv/ThreadManager.cpp:65-267 | in every infinite fair run every call returns, if and only if the bare wait of line 212 may not wake up spuriously |
| CvSpurious.SpuriousWakeupReturnsEarly | 08_Thread/manager_worker/04_cache_req_during_init_cv/ThreadManager.cpp:212 | with a spurious wakeup of the bare wait, `RunWorker` can return true while the worker is still Inited |
| CvSpurious.SpuriousWakeupHangsQuit | 08_Thread/manager_worker/04_cache_req_during_init_cv/ThreadManager.cpp:153-159 | and `QuitWorker` can then find itself waiting for a worker that loops in `Run` |
| CvSpurious.HungForEver | 08_Thread/manager_worker/04_cache_req_during_init_cv/ThreadManager.cpp:159 | whatever steps follow, that call never returns |
| SemWorker.NextKeepsInv | 08_Thread/manager_worker/05_cache_req_during_init_sem/src/ThreadWorker.cpp:71-108 | every worker line and every manager action keeps tokens, flags, states and the order of hooks |
| SemWorker.TokenConservation | 08_Thread/manager_worker/05_cache_req_during_init_sem/src/ThreadWorker.cpp:81-107 | in every run `sem_op_` plus `sem_stop_` plus the token the worker holds equals the outstanding request, 0 or 1 |
| SemWorker.HookLanguage | 08_Thread/manager_worker/05_cache_req_during_init_sem/src/ThreadWorker.cpp:71-108 | under every interleaving the hooks called are a prefix of Init (Run+ Stop)* Deinit; Deinit is called only after a quit request and never while Running |
| Hooks.OrderlyIffPrefix | 08_Thread/manager_worker/05_cache_req_during_init_sem/src/ThreadWorker.cpp:71-108 | the successor rule that the invariant keeps describes exactly the prefixes of that language |
| SemWorker.StateMoves | 08_Thread/manager_worker/05_cache_req_during_init_sem/src/ThreadWorker.cpp:85-99 | the state goes from Initing to Inited, and between Inited and Running, only |
| SemWorker.StoppedWorkerIsParked | 08_Thread/manager_worker/05_cache_req_during_init_sem/src/ThreadManager.cpp:194-206 | once `StopWorker` has returned true the worker is Inited and cannot step |
| SemWorker.NoRunAfterStop | 08_Thread/manager_worker/05_cache_req_during_init_sem/src/ThreadManager.cpp:194-206 | until the next run request no further hook is called, except Deinit after a quit |
| SemWorker.BlockedWorkerProgresses | 08_Thread/manager_worker/05_cache_req_during_init_sem/src/ThreadManager.cpp:89-97 | while the manager waits in `StopWorker` or `join`, the worker is enabled and each step lessens a measure |
| SemWorker.BlockingCallsEnd | 08_Thread/manager_worker/05_cache_req_during_init_sem/src/ThreadManager.cpp:195-206 | nine worker steps release the manager from any point, also while the worker is in `Init` |
| SemWorker.RunRequestRuns | 08_Thread/manager_worker/05_cache_req_during_init_sem/src/ThreadWorker.cpp:81-93 | after a run request, whatever the worker was doing, at most seven of its steps make it Running and call `Run` once more |
| SemWorker.StopEndsWithStop | 08_Thread/manager_worker/05_cache_req_during_init_sem/src/ThreadWorker.cpp:95-104 | the stop of a running worker is answered in state Inited, with Stop as the last hook |
| SemWorker.JoinEndsWithDeinit | 08_Thread/manager_worker/05_cache_req_during_init_sem/src/ThreadWorker.cpp:107 | a join is released at the end of the thread, with Deinit as the last hook |
| SemManager.ThreadManager.Await | 08_Thread/manager_worker/05_cache_req_during_init_sem/src/ThreadManager.cpp:89-97 | the blocking waits of `StopWorker` and `join` end, in a state in which the manager is released, while all workers run on |
| SemManager.ThreadManager.Interfere | 08_Thread/manager_worker/05_cache_req_during_init_sem/src/ThreadManager.cpp:130-134 | at any point of a call the threads of all workers may run on; requests and the invariant of every worker stay |
| SemManager.AnsweredReqs | 08_Thread/manager_worker/05_cache_req_during_init_sem/src/ThreadManager.cpp:40-208 | a call that answers as the automaton changes the requests of all names as the automaton does |
| SemManager.OnlyOneName | 08_Thread/manager_worker/05_cache_req_during_init_sem/src/ThreadManager.cpp:40-208 | for any sequence of requests, the answers and the final request of a name depend only on the requests for that name |
| SemManager.ThreadManager.NewWorker | 08_Thread/manager_worker/05_cache_req_during_init_sem/src/ThreadManager.cpp:40-66 | accepts a name that is absent and no other; the new state is the automaton's |
| SemManager.ThreadManager.RunWorker | 08_Thread/manager_worker/05_cache_req_during_init_sem/src/ThreadManager.cpp:139-173 | answers and moves as the automaton, for any worker schedule |
| SemManager.ThreadManager.StopWorker | 08_Thread/manager_worker/05_cache_req_during_init_sem/src/ThreadManager.cpp:175-208 | answers and moves as the automaton, and returns |
| SemManager.ThreadManager.QuitWorker | 08_Thread/manager_worker/05_cache_req_during_init_sem/src/ThreadManager.cpp:102-137 | answers and moves as the automaton, with the nested stop of a running worker |
| SemManager.ThreadManager.DeleteWorker | 08_Thread/manager_worker/05_cache_req_during_init_sem/src/ThreadManager.cpp:68-100 | joins and erases a worker that was asked to quit, and no other |
| SemManager.AnsweredByFlags | 08_Thread/manager_worker/05_cache_req_during_init_sem/src/ThreadManager.cpp:40-208 | New is accepted if and only if the name is absent, Run if the worker has neither flag, Stop if it has `to_run_`, Quit if it lacks `to_quit_`, Delete if it has it; an accepted call sets these flags, the state or the absence of the name, and a refused one keeps them |
| SemManager.ThreadManager.Serve | 08_Thread/manager_worker/05_cache_req_during_init_sem/src/ThreadManager.cpp:40-208 | the same of the call itself, on the flags of the worker objects before and after it |
| SemManager.ThreadManager.ServeAll | 08_Thread/manager_worker/05_cache_req_during_init_sem/src/ThreadManager.cpp:40-208 | for any requests over any names and any schedule of all workers, in the calls and between them, all answers and the final requests are the automaton's |
| SemManager.ThreadManager.CleanUp | 08_Thread/manager_worker/05_cache_req_during_init_sem/test/test_automatic.cpp:139-166 | quit then delete on every name empties the map from any state |
| CvSemaphore.NextKeepsInv | 08_Thread/semaphore/src/CvSemaphore.cpp:24-54 | every step of every thread keeps mutual exclusion, the balance of the counter and the wakeups it needs |
| CvSemaphore.RunsHaveInv | 08_Thread/semaphore/src/CvSemaphore.cpp:24-54 | in every run of any number of threads the counter is the initial value plus the posts less the waits that have returned 0 or are about to, within 0 and UINT32_MAX; a post fails only on a full and a try only on an empty semaphore; while a thread sleeps the counter is at most the wakeups under way |
| CvSemaphore.RestIsSettled | 08_Thread/semaphore/src/CvSemaphore.cpp:37-43 | when nobody works, threads sleep only if the counter is 0 |
| CvSemaphore.NoDeadlock | 08_Thread/semaphore/src/CvSemaphore.cpp:24-54 | if a thread is in a call and awake, some thread can step |
| CvSemaphore.WorkUsesUpSteps | 08_Thread/semaphore/src/CvSemaphore.cpp:24-54 | each step of a call uses up the steps that are left, also when it wakes up a sleeper |
| CvSemaphore.WorkRunsEnd | 08_Thread/semaphore/src/CvSemaphore.cpp:24-54 | calls in progress take a bounded number of steps together |
| CvSemaphore.WorkRunsSettle | 08_Thread/semaphore/src/CvSemaphore.cpp:24-54 | and then every thread is idle or sleeps on an empty semaphore |
| SemaphoreCalls.CallsAnswer | 08_Thread/semaphore/src/CvSemaphore.cpp:24-54 | in every run each returned `Post` has failed if and only if the semaphore was full when it owned the mutex, and each `TryWait` if and only if it was empty |
| SemaphoreCalls.AllAreServed | 08_Thread/semaphore/src/CvSemaphore.cpp:24-54 | when calls in progress come to rest without filling the semaphore, every post has returned 0, and as many waits have returned as there were units for them; the others sleep on an empty semaphore |
| RingBuffer.RingBuffer.constructor | 09_ringbuffer/RingBuffer.cpp:9-16 | a new buffer is empty and has room for `count` elements |
| RingBuffer.RingBuffer.IncIdx | 09_ringbuffer/RingBuffer.cpp:81-85 | the sum is below twice the capacity at every call, and is reduced once |
| RingBuffer.RingBuffer.Write | 09_ringbuffer/RingBuffer.cpp:18-39 | appends all inputs, or zeros for a null pointer, to the queue, or fails and changes nothing |
| RingBuffer.RingBuffer.Read | 09_ringbuffer/RingBuffer.cpp:41-61 | removes and copies out exactly the oldest elements, or fails and changes nothing |
| RingBuffer.RingBuffer.ReadNoPop | 09_ringbuffer/RingBuffer.cpp:62-79 | copies out the requested slice of the queue and leaves the queue alone |
| RingBuffer.RingBuffer.FreeSpace | 09_ringbuffer/RingBuffer.h:20 | what the capacity leaves over beside the elements of the queue |
| RingBuffer.RingBuffer.BusySpace | 09_ringbuffer/RingBuffer.h:21 | the number of elements of the queue |
| RingBuffer.FirstInFirstOut | 09_ringbuffer/RingBuffer.cpp:18-79 | for any sequence of writes, reads and looks, what was read followed by the queue is what was written, and the capacity is never exceeded |
| RingBuffer.AnswersFromHistory | 09_ringbuffer/RingBuffer.cpp:18-79 | in any such sequence every answer, failures and looks included, follows from what was written and how much of it was read |
| RingBuffer.RingBuffer.ServeAll | 09_ringbuffer/RingBuffer.cpp:18-79 | a new buffer answers any such sequence as the bounded queue does |
| EventQueue.NextKeepsSafe | 13_EventQ/ProducerConsumer.cpp:20-50 | every step keeps mutual exclusion, room for what passed its test, and the order of the elements |
| EventQueue.QueueSafety | 13_EventQ/ProducerConsumer.cpp:20-50 | in every run, with batches of any size, the outputs in lock order followed by the queue are the inputs in lock order |
| EventQueue.WholeBatches | 13_EventQ/ProducerConsumer.cpp:25-47 | a batch is written whole, and a read takes exactly as many elements as asked, the next ones in the order of writing |
| QueueCalls.EachCallIsServedOnce | 13_EventQ/ProducerConsumer.cpp:20-50 | in every run each returned call has touched the queue in exactly one step, in which its whole batch was written, or exactly as many elements as it asked for were taken, the next ones in the order of writing |
| EventQueue.NoDeadlock | 13_EventQ/ProducerConsumer.cpp:20-50 | if a thread is in a call and awake, some thread can step |
| EventQueue.WakeupsSuffice | 13_EventQ/ProducerConsumer.cpp:20-50 | with one batch size (and empty batches), while consumers sleep every queued batch has a wakeup under way, and while producers sleep every free place for a batch has |
| EventQueue.NeverAllAsleep | 13_EventQ/main.cpp:38-62 | with one batch size that fits, producers and consumers never all sleep; consumers then sleep only on an empty queue and producers only on one without room for a batch |
| EventQueue.WorkUsesUpSteps | 13_EventQ/ProducerConsumer.cpp:20-50 | each step of a call lowers a potential on the program counters, for batches of any size, also when a woken thread falls asleep again |
| EventQueue.WorkRunsEnd | 13_EventQ/ProducerConsumer.cpp:20-50 | without new calls and spurious wakeups, the calls in progress take a bounded number of steps together |
| BatchSizes.TwoSizesGetStuck | 13_EventQ/ProducerConsumer.cpp:20-50 | for any two sizes got, of which the smaller one is put and fits, a run ends with nobody at work and a sleeping consumer that could be served |
| BatchSizes.DifferentSizesGetStuck | 13_EventQ/ProducerConsumer.cpp:20-50 | so it does, for a producer or a consumer, if one size put differs from one size got and there is room for both |
| BatchSizes.SafeSizesNeverStuck | 13_EventQ/ProducerConsumer.cpp:20-50 | at any capacity no run ends with a lost wakeup if all nonempty sizes put equal all nonempty sizes got, or no batch put fits |
| BatchSizes.SeparateSizes | 13_EventQ/ProducerConsumer.cpp:20-50 | with room for any batch put beside any batch got, no run ends with a lost wakeup if and only if all nonempty sizes put equal all nonempty sizes got |
| BatchSizes.AnyCapacity | 13_EventQ/ProducerConsumer.cpp:20-50 | the same for all capacities together |
| BatchSizes.SafeBatchSizes | 13_EventQ/ProducerConsumer.cpp:20-50 | for any set of sizes shared by both sides and any capacity, no run ends with a lost wakeup if and only if there is one size that is not 0, or none that fits |
| BatchSizes.WorkRunsSettle | 13_EventQ/ProducerConsumer.cpp:20-50 | with safe sizes, when calls cannot go on, every thread is idle or asleep and no sleeping thread could go on |
| Bits.ShiftsScale | 05_bit_counting/reference.cpp:111-113 | shifts and low bits are multiplication, quotient and remainder by a power of two |
| Bits.ClearLowestOne | 05_bit_counting/reference.cpp:27-38 | `n & (n - 1)` removes exactly the lowest one |
| Bits.Complement | 05_bit_counting/reference.cpp:41-46 | toggling all bits turns the zeros into the ones, for any width |
| Bits.CastingOut | 05_bit_counting/reference.cpp:159-167 | a number of any length is congruent to the sum of its digits, modulo the base less one |
| Bits.CountedRemainder | 05_bit_counting/reference.cpp:159-167 | the remainder of a word that counts field by field is the number of ones, if that is below the base less one |
| BitCount.IteratedBitcount | 05_bit_counting/reference.cpp:15-24 | counts the ones |
| BitCount.SparseOnesBitcount | 05_bit_counting/reference.cpp:29-38 | counts the ones, in one iteration for each of them |
| BitCount.DenseOnesBitcount | 05_bit_counting/reference.cpp:43-53 | counts the ones, in one iteration for each zero |
| BitCount.ComputeBitsInChar | 05_bit_counting/reference.cpp:60-66 | fills the table with the ones of every byte |
| BitCount.ComputeBitsIn16Bits | 05_bit_counting/reference.cpp:84-90 | fills the table with the ones of every halfword, which fit in a signed char |
| BitCount.PrecomputedBitcount | 05_bit_counting/reference.cpp:68-76 | four lookups in the filled table count the ones |
| BitCount.Precomputed16Bitcount | 05_bit_counting/reference.cpp:92-98 | two lookups in the filled table count the ones |
| BitCount.CountsFields | 05_bit_counting/reference.cpp:101-113 | after `c` counts each field of 2^c bits holds the ones of that field of the original, for any power-of-two width |
| BitCount.ParallelAnyWidth | 05_bit_counting/reference.cpp:115-124 | the parallel count is exact for any power-of-two width |
| BitCount.ParallelExact | 05_bit_counting/reference.cpp:115-124 | the 32-bit function counts the ones of every word |
| BitCount.NiftyExact | 05_bit_counting/reference.cpp:137-143 | so does the remainder modulo 255 |
| BitCount.OctalCounts | 05_bit_counting/reference.cpp:147-157 | subtracting the two shifted words leaves the ones of each octal digit, without borrow between digits |
| BitCount.SixBitCounts | 05_bit_counting/reference.cpp:159-167 | adding the octal digits two by two leaves the ones of each field of six bits, without carry |
| BitCount.MitExact | 05_bit_counting/reference.cpp:173-180 | HAKMEM item 169 counts the ones of every 32-bit word |
| BalancedTree.BuildBalances | 03_BST/BST.tpp:20-36 | the stored counts are the sizes of the subtrees and differ by 0 or 1 at every node |
| BalancedTree.BuildKeepsOrder | 03_BST/BST.tpp:20-36 | the in-order traversal of the built tree is the sorted input |
| BalancedTree.BalancedHeight | 03_BST/BST.tpp:20-36 | a balanced tree of height h has at least 2^(h-1) and fewer than 2^h nodes |
| BalancedTree.BuiltTree | 03_BST/BST.tpp:11-18 | for any nonempty input with duplicates, the built tree is sorted, a permutation of the input, balanced, and of exact logarithmic height |
| BalancedTree.SortIsUnique | 03_BST/BST.tpp:15 | sorting has one result, so the tree depends on the input's values only |
| BalancedTree.MirrorReverses | 03_BST/BST.tpp:67-91 | in the mirrored tree the post-order is the pre-order backwards and the in-order the in-order backwards |
| BalancedTree.SameVisits | 03_BST/BST.tpp:67-91 | all three orders visit the same values |
| BalancedTree.PreOrderRebuilds | 03_BST/BST.tpp:73-90 | inserting the pre-order of a search tree with distinct values one by one into an empty tree rebuilds its values and shape |
| BalancedTree.PostOrderRebuilds | 03_BST/BST.tpp:73-90 | so does inserting its post-order from the last to the first |
| BalancedTree.MiddleFirstOrLast | 03_BST/BST.tpp:20-90 | in the built tree, with duplicates or not, the middle of the sorted input comes first in pre-order and last in post-order, and its lower half before its upper half |
| BalancedTree.InitBalanceBST | 03_BST/BST.tpp:20-36 | allocates a tree of disjoint fresh nodes that represents the built tree |
| BalancedTree.NewBST | 03_BST/BST.tpp:11-18 | the constructor builds that tree from the sorted input |
| BalancedTree.DoTraverse | 03_BST/BST.tpp:66-91 | calls the functor on the values in the given order |
| BalancedTree.SearchInBuilt | 03_BST/BST.tpp:95-108 | search in the built tree finds a matching node exactly when the value is in the input, after at most as many probes as the height |
| BalancedTree.DoSearchFinds | 03_BST/BST.tpp:101-108 | search on the nodes returns a node of the tree, whose subtree is the one that search on values finds |
| BalancedTree.SearchFromRoot | 03_BST/BST.tpp:95-108 | from the root of the built tree, search returns a node of the tree that holds the value, exactly when the value is in the input |
| BalancedTree.DestroyBalanceBST | 03_BST/BST.tpp:46-55 | frees each node of the tree once, and only after its whole subtree |
| Parrot.Driver.constructor | 14_parrot_driver/parrot_driver/parrot_driver.c:212-215 | after initialisation the queue is empty and the device closed |
| Parrot.Driver.Open | 14_parrot_driver/parrot_driver/parrot_driver.c:62-82 | write access and a second opening are refused without effect; an accepted one allows a message to be read again |
| Parrot.Driver.Close | 14_parrot_driver/parrot_driver/parrot_driver.c:84-89 | releases the device and changes nothing else |
| Parrot.Driver.Read | 14_parrot_driver/parrot_driver/parrot_driver.c:91-116 | returns the oldest queued message whole, whatever `length` is, and removes it, or nothing in one-shot mode after a read or without bytes; the FIFO stays in step with the table across the wraparound of the index |
| Parrot.Driver.AddToFifo | 14_parrot_driver/parrot_driver/parrot_driver.c:127-151 | queues the whole message, or refuses it without effect when the FIFO or the table has no room |
| Parrot.Driver.Reset | 14_parrot_driver/parrot_driver/parrot_driver.c:154-164 | empties the queue and leaves the one-shot flag alone |
| Parrot.Driver.ServeAll | 14_parrot_driver/parrot_driver/parrot_driver.c:62-164 | from initialisation on, the driver answers any sequence of calls as the run on queues does, so all that holds in every run holds of it |
| Parrot.FramesAppend | 14_parrot_driver/parrot_driver/parrot_driver.c:143-148 | bytes and lengths appended together add one message and keep all others |
| Parrot.LengthsAfterRead | 14_parrot_driver/parrot_driver/parrot_driver.c:106-112 | moving the read index around the table removes the oldest length |
| Parrot.LengthsAfterWrite | 14_parrot_driver/parrot_driver/parrot_driver.c:136-148 | writing at the write index and moving it adds one length, unless the table is full |
| Parrot.MessagesAreFramed | 14_parrot_driver/parrot_driver/parrot_driver.c:91-164 | in every run the messages accepted since the last reset are those delivered, in order and whole, followed by those queued; in one-shot mode at most one is delivered per opening |
| Parrot.OneHolder | 14_parrot_driver/parrot_driver/parrot_driver.c:73-89 | at most one process has the device open |
| Parrot.RepliesFromHistory | 14_parrot_driver/parrot_driver/parrot_driver.c:62-164 | in every run each reply, error codes and byte counts included, follows from the messages accepted and delivered since the last reset and from the opens and closes |
| Parrot.RoundsGetTheQueue | 14_parrot_driver/parrot_driver/parrot_driver.c:62-116 | opening, reading once and closing, once per message, returns the queue; it empties the queue if and only if the last message is not empty |
| Parrot.QueueComesBack | 14_parrot_driver/parrot_driver/parrot_driver.c:62-151 | in every run with nonempty writes the queue never jams, and when the device is closed, one read per opening returns the queue and empties it |
| Parrot.EndOfFileMeans | 14_parrot_driver/parrot_driver/parrot_driver.c:96-104 | in every such run a read returns no bytes if and only if the queue is empty or the one shot has been read |
| Parrot.LengthDecides | 14_parrot_driver/parrot_driver/parrot_driver.c:91-115 | no read returns more than `length` bytes, in all runs and in all runs of nonempty writes that leave the device open, if and only if `length` is at least the FIFO size |
| Parrot.DeliveryIsPossible | 14_parrot_driver/parrot_driver/parrot_driver.c:101-141 | if the callback were given empty messages: without a reset, a message can still be delivered now or later if and only if the table is not full of empty ones |
| Parrot.SysfsDecides | 14_parrot_driver/parrot_driver/parrot_driver.c:127-151 | no run fills the table with empty messages if and only if empty writes are kept away from the callback |

## Left out

- CvProgress.EveryCallReturns: asks for fairness towards the manager and for finitely many spurious wakeups, because a scheduler that runs only one thread, or wakes a waiter for ever, keeps any call from returning.
- CvHandshake: the map of named workers and calls on absent names; the calls work on one worker and share nothing with others. The same map is modelled for the semaphore version.
- CvHandshake: several tests of `state_` in one chain of `if`s are one step. The manager owns the response mutex there, and the state changes only under it.
- CvHandshake: lines 96 and 141 of ThreadWorker.cpp are the same wait with the same continuation, and are one line of the model.
- SemWorker: `is_first_run_`, which only limits logging.
- `PosixSemaphore`, the kernel's `kfifo` and `std::sort` are modelled by contract: an atomic counter (`sem_post` and `sem_wait` of POSIX.1-2008), a bounded byte queue, and a sorted permutation. The comparator `<=` of the tree is not a strict weak ordering, so the contract of `std::sort` is assumed for it.
- RingBuffer: negative counts and offsets, and elements other than `int`, the instantiation that the event queue uses.
- EventQueue: the `new_request` flags of 13_EventQ/main.cpp, an interactive demonstration.
- EventQueue.WakeupsSuffice: holds for batches of one size only; `BatchSizes` says exactly when wakeups are lost otherwise.
- BatchSizes.SeparateSizes: with separate sets of sizes and less room than for one batch of each, only the sufficient condition (`BatchSizes.SafeSizesNeverStuck`) is proved for a single capacity.
- BalancedTree: an empty input, for which the constructor dereferences the end of an empty vector; writing the tree to a file; side effects of the functor other than being called.
- Parrot: the size of the buffer behind the pointer that `read` is given; faults while copying to user memory, and callbacks that run at the same time (the driver has no lock around the FIFO).
- Logging, thread names, the `Callback` hook, registration of the kernel device.
- 01, 02 and 03 of 08_Thread/manager_worker, earlier drafts of the same service; the parser, the sockets and the language demonstrations, which contain no protocol or algorithm of their own.
