# A verified model of the user-level thread scheduler

The scheduler hands one processor between operating-system threads. Each thread has a semaphore of its own; a call
that reschedules posts the semaphore of the next thread and then waits on the caller's. The scheduling state
(running record, ready queue, waiting list, list of created threads, table of records) is shared and has no lock. This
project models the Linux sources and proves, for every interleaving of every program that uses the scheduler as it is
meant to be used, that this is safe and what policy comes out of it. The Windows scheduler has the same logic and differs in
three places: `HT_CAPACITY` is 100 (no result here depends on the capacity being 1000); the semaphores have maximum count 1
(`Windows/so_scheduler.c:274`), which `Protocol.TokenIsConserved` covers; and the list of created threads holds their handles
instead of their ids, and `so_end` waits on those (`Windows/so_scheduler.c:288-289`, `Windows/so_scheduler.c:552`), which for
this model is another name for the same thread.

`dafny verify dfyconfig.toml` checks everything.

## Layers

| file | what it is |
|---|---|
| `Options.dfy`, `Sequences.dfy` | an optional value; a sequence without one of its elements |
| `ReadyQueue.dfy` | the ready queue and the waiting list as sequences: where an insertion goes, whom a signal wakes |
| `SchedulerSpec.dfy` | each call as one atomic step, with its error returns and with `Crash` for a null dereference |
| `SequentialMachine.dfy` | a machine whose steps are atomic calls, and the invariant of all its runs |
| `Policy.dfy` | quantum accounting, who comes next, how long a thread waits |
| `Laws.dfy` | for each call, from the state before it: the answer, who runs next, the order of the others; from a wait to its signal; from the arguments of so_init |
| `Rotation.dfy` | round robin in closed form, who gets a turn and who does not |
| `MicroCode.dfy` | each call cut into its single accesses; run undisturbed they make the atomic step |
| `Protocol.dfy` | threads with program counters and semaphores; every access, post, wait and join is a step of its own and steps interleave freely; refinement of the sequential machine |
| `Programs.dfy` | the converse of that refinement; the system has no influence on the schedule; finite programs end |
| `LinkedLists.dfy` | the linked list, and the priority queue on it, as pointer surgery on heap nodes |
| `HashTables.dfy` | the chained hash table |
| `Scheduler.dfy` | the calls on those heap structures, refining the atomic steps |

The three readings of a call meet in `SchedulerSpec.Spec`: the heap methods compute it (`Schedulers.Scheduler.SoFork` and
the others), the accesses add up to it (`MicroCode.FinishIsSpec`), and an interleaved execution is a run of it
(`Protocol.ExecutionsRefineRuns`). The invariant proved once about the sequential machine therefore holds of all three.

## What is assumed of the program and of the system

- `so_init` has succeeded, so the quantum is at least 1.
- The main thread may make calls that return at once; its first accepted `so_fork` is its last call before `so_end`.
- Every other call is made by a thread that is in its handler. That such a thread holds the right to run, and is the one in
  the running record, is proved and not assumed.
- A new thread gets an id that is not 0 and that no thread has had before (threads are joined only in `so_end`).
- A semaphore is a natural number with an atomic post and a wait that needs it positive; an access is atomic, where an access
  is one lookup, test, insertion or removal in one structure, or one update of one record, the running record or the flag
  (reading a field that never changes is none); allocation and system calls succeed.

Nothing is assumed about how many threads there are, what they call, how often, or who is scheduled by the system when.

## A property that does not hold

Round robin asks that ready threads of equal priority take turns. They do not always: if a lower thread sits at the tail of
the ready queue, an insertion goes right behind the first equal one (`Linux/priority_queue.c:82`).

- `Rotation.UnfairRunExists` is a run that gets there: main starts a thread of priority 2, which starts two of its own priority
  and one below it. As long as everybody only calls `so_exec`, the second of the two never runs.
- `Rotation.FairExactlyWhen`: from any state of any run with a thread running, every ready thread of the running priority is the runner after some
  number of `so_exec` calls if and only if there are not two of them in the queue in front of a lower tail (`JumpsQueue`).
- `Rotation.RunnersAreTheCycle` says who does get to run, `Rotation.TurnComesInTime` how soon, and `Rotation.RoundRobin` gives
  the state after any number of `so_exec` calls, whatever is left of each quantum at the start; whoever is left out does not move.
- `ReadyQueue.FirstComeFirstServed` is the same dividing line for a single insertion.

The repository's text and its code differ in one place: `Linux/README.md` calls the argument of `so_wait` a waiting time; the code
treats it as the number of an event, and so does the model.

## Model

| member | source | states |
|---|---|---|
| Protocol.ExecutionsRefineRuns | Linux/so_scheduler.c:216-553 | Every interleaved execution is a run of the machine whose calls are atomic; in user code a thread sees exactly that machine's state, is the thread in the running record and has been returned that machine's value; every sleeper waits on its own semaphore; no thread ever dereferences null |
| Protocol.TokenIsConserved | Windows/so_scheduler.c:274 | In every reachable state the semaphores and the threads in user code or in a call sum to 1, or to 0 with nobody ready; no semaphore exceeds 1, every post finds its semaphore at 0, and a posted permit is for the running thread, which is about to wait |
| Protocol.OneAtATime | Linux/so_scheduler.c:162-171 | No two threads are in user code or inside a call at once, in spite of the overlap between post and wait |
| Protocol.EndJoinsEverybody | Linux/so_scheduler.c:541-553 | so_end gets past its last join only when every thread ever created has ended, nobody is ready and the permit is gone, however its walk interleaves with threads that append to the list |
| Protocol.ExecutionsEnd | Linux/so_scheduler.c:216-553 | An execution with n calls (returns of handlers included) has at most 1 + 32n steps |
| Programs.RunsAreExecuted | Linux/so_scheduler.c:216-553 | The converse of the refinement: every run of the atomic machine is the calls of some interleaved execution |
| Programs.ScheduleIsDetermined | Linux/so_scheduler.c:162-171 | If what each thread calls next depends only on its id and on what its calls have returned, then of any two executions the calls of one are the first calls of the other: the system has no influence on the schedule |
| Programs.ViewsAreDetermined | Linux/so_scheduler.c:126-131 | After as many calls, the same thread is in user code in both executions, with the same return value and the same shared structures |
| Programs.FiniteProgramsEnd | Linux/so_scheduler.c:216-553 | If main and all the threads it leads to have finite handlers, an execution makes at most as many calls as they have in all, and has at most 1 + 32 times as many steps |
| Programs.FiniteProgramsEndProperly | Linux/so_scheduler.c:431-457 | An execution of finite handlers in which no step can follow has ended, main included, or has nobody ready and every thread that has not ended asleep in the waiting list |
| Programs.RestWeighsLess | Linux/so_scheduler.c:260-377 | Every call uses up a part of the handlers; a fork moves a part to the child |
| Programs.RunsAgree | Linux/so_scheduler.c:302-305 | Two runs of one program on the atomic machine agree as far as the shorter one goes |
| Protocol.StuckShape | Linux/so_scheduler.c:431-457 | An execution that cannot go on has nobody ready, each thread has ended or is asleep in the waiting list, and main has returned exactly if nobody waits |
| Protocol.Progress | Linux/so_scheduler.c:431-457 | While the permit is not lost some thread has an enabled step |
| Protocol.ExecutionKeeps | Linux/so_scheduler.c:216-553 | The refinement relation and the bound on steps hold after any execution |
| Protocol.StepKeeps | Linux/so_scheduler.c:216-553 | Any enabled step is matched by one atomic call or by none, and a step that is not a call uses up some of what is left to do |
| Protocol.CallerIsActor | Linux/so_scheduler.c:390-392 | Any thread that calls is the one in the running record, so the table lookup of the call finds the caller |
| Protocol.CallKeeps | Linux/so_scheduler.c:260-531 | Entering a call is matched by the whole atomic call |
| Protocol.AccessKeeps | Linux/so_scheduler.c:260-531 | A single access, by whichever thread, changes nothing the atomic machine can see |
| Protocol.PostKeeps | Linux/so_scheduler.c:162-166 | A post passes the right to run into the next thread's semaphore, which is 0 before; the next thread may be the caller |
| Protocol.AcquireKeeps | Linux/so_scheduler.c:168-171 | Only the posted thread's wait can succeed, and it becomes the holder |
| Protocol.JoinIsComplete | Linux/so_scheduler.c:541-553 | With all of the list joined nobody holds the right to run, since a holder is on the list and has not ended |
| Protocol.FinishCreated | Linux/so_scheduler.c:286-288 | Left to run, a call in progress appends to the list of created threads only if it is a fork before its first access, and then just the child |
| MicroCode.FinishIsSpec | Linux/so_scheduler.c:260-531 | For every call and every state, crashing ones included, the single accesses run one after the other make exactly the atomic call |
| MicroCode.FinishLoop | Linux/so_scheduler.c:491-505 | The waking loop moves all the waiters for the event and counts them |
| MicroCode.FinishBranch | Linux/so_scheduler.c:299-374 | The three-way branch of a fork: first thread, used-up quantum, preemption |
| MicroCode.FinishCompare | Linux/so_scheduler.c:315-357 | The accesses of a fork with quantum left switch to a higher head, or go on |
| MicroCode.FinishLookup | Linux/so_scheduler.c:302-305 | The lookup of the running record finds the running thread, or dereferences null |
| MicroCode.FinishRefill | Linux/so_scheduler.c:138-172 | What follows a used-up quantum is refill, re-queue, dispatch |
| MicroCode.NextDecreases | Linux/so_scheduler.c:493-505 | Every access brings a call nearer its end; the waking loop ends because the waiting list shrinks |
| SequentialMachine.RunKeeps | Linux/so_scheduler.c:216-531 | The invariant holds after any run of calls |
| SequentialMachine.ActKeeps | Linux/so_scheduler.c:216-531 | Each call by the caller the system allows does not crash, goes on as its caller, and keeps the invariant |
| SequentialMachine.EveryThreadInOnePlace | Linux/so_scheduler.c:286-296 | After any run each created thread is in exactly one of running, ready, waiting, ended, once, and no other id is in any; the list of created threads has no duplicate |
| SequentialMachine.HighestPriorityRuns | Linux/so_scheduler.c:312-357 | After any run the ready queue is sorted, the thread that may run has its own recorded priority and at least that of every ready thread, and nobody is ready once the permit is lost |
| SequentialMachine.StartInv | Linux/so_scheduler.c:182-207 | The state after so_init satisfies the invariant |
| SequentialMachine.ExecKeeps | Linux/so_scheduler.c:384-398 | so_exec finds the caller's record and keeps the invariant; the unsigned decrement does not wrap |
| SequentialMachine.ForkKeeps | Linux/so_scheduler.c:260-377 | so_fork keeps the invariant in all its branches |
| SequentialMachine.WaitKeeps | Linux/so_scheduler.c:407-460 | so_wait keeps the invariant, and loses the permit if and only if it is accepted with nobody ready |
| SequentialMachine.SignalKeeps | Linux/so_scheduler.c:469-531 | so_signal keeps the invariant |
| SequentialMachine.ExitKeeps | Linux/so_scheduler.c:229-250 | The end of a handler keeps the invariant, and loses the permit if and only if nobody is ready |
| SequentialMachine.DispatchKeeps | Linux/so_scheduler.c:149-160 | With nobody running and somebody ready, taking the head of the queue crashes nowhere and leaves nobody ready above the running thread |
| SequentialMachine.RunningIsElsewhere | Linux/so_scheduler.c:302-305 | The running thread is recorded and alive, and neither ready nor waiting |
| Laws.CallAnswers | Linux/so_scheduler.c:260-531 | What each call returns: the new id for an accepted fork in every branch (going on, preempted, quantum used up) and INVALID_TID for a rejected one; 0 for so_wait, -1 for an event out of range while a thread runs; for so_signal the number of waiters for its event, -1 out of range; nobody else's answer changes |
| Laws.IdleCall | Linux/so_scheduler.c:473-478 | Calls but a fork before the first thread, rejected calls, and a signal while nobody waits, change no structure and post nobody |
| Laws.FirstFork | Linux/so_scheduler.c:358-374 | The first accepted fork: its thread is the only one, runs with the priority asked for and a full quantum, is posted, and main gets its id |
| Laws.ExecHandsOver | Linux/so_scheduler.c:384-398 | so_exec with quantum left keeps runner and queue; with the last unit the runner and the queue are the old queue with the caller inserted |
| Laws.ForkHandsOver | Linux/so_scheduler.c:286-357 | An accepted fork with quantum left and a child not above the caller inserts the child and goes on; otherwise, preempted or out of quantum alike, runner and queue are the old queue with child and caller inserted in this order |
| Laws.WaitHandsOver | Linux/so_scheduler.c:422-451 | An accepted so_wait makes its caller the last waiter, for that event and with its own priority, and runs and posts the old head of the queue, if any, in front of the rest as it stood |
| Laws.ExitHandsOver | Linux/so_scheduler.c:229-250 | The end of a handler runs and posts the old head of the queue, if any, in front of the rest as it stood |
| Laws.SignalHandsOver | Linux/so_scheduler.c:485-517 | After an accepted so_signal with somebody waiting, runner and queue are the old queue with the caller and then the waiters for the event inserted, in waiting order |
| Laws.SignalChooses | Linux/so_scheduler.c:507-517 | Who runs and is posted then: the first of the highest waiters for the event if one is above the caller; else the old head if it has the caller's priority; else the caller |
| Laws.SignalYields | Linux/so_scheduler.c:485-488 | If the old head has the caller's priority, the caller stands behind it afterwards |
| Laws.SleepsUntilSignal | Linux/so_scheduler.c:407-460 | From an accepted so_wait on, over any run without a signal for its event, the caller is in the list for that event with its own priority, makes no call, and will hear 0 |
| Laws.SignalEndsWait | Linux/so_scheduler.c:490-505 | The first signal for the event after that takes the caller of so_wait out of the list, makes it ready or lets it run, and counts it; so_wait returns 0 |
| Laws.ArgumentsHold | Linux/so_scheduler.c:188-190 | After any run the quantum and the number of events are the arguments of so_init |
| Laws.ExecUsesGivenQuantum | Linux/so_scheduler.c:188-190 | After any run from so_init(q, io), so_exec gives up the processor exactly at every q-th charge of its caller |
| Laws.EventsAreThoseGiven | Linux/so_scheduler.c:188-190 | After any run from so_init(q, io), with a thread running, so_wait and so_signal answer -1 exactly for an event that is not below io |
| Laws.HeadAfterPushAll | Linux/priority_queue.c:62-76 | After any insertions the head is the old head or the newcomer that beats it, the first of the highest |
| Laws.PushAllKeepsOrder | Linux/priority_queue.c:47-95 | Insertions keep the order of those already queued |
| Laws.PushBehindHigher | Linux/priority_queue.c:62-91 | A newcomer above everybody goes in front and does not change where a second one goes among the others |
| Policy.QuantumAccounts | Linux/so_scheduler.c:393-397 | Over any run and for every thread, charges = q * expiries + (q - quantum) with 1 <= quantum <= q |
| Policy.ChargeOfOne | Linux/so_scheduler.c:308-312 | A call changes the quantum of its caller only if it is so_exec or an accepted non-first fork, by 1 or back to q, and nobody else's; wait, signal, exit and preemption change none |
| Policy.ExecGivesUpAtEveryQthCharge | Linux/so_scheduler.c:384-398 | so_exec gives up the processor exactly when the caller's number of charges, this one included, is a multiple of q |
| Policy.ActParams | Linux/so_scheduler.c:393-397 | After a call the table differs in at most the caller's quantum and the child's new record |
| Policy.ForkPreemptsForChild | Linux/so_scheduler.c:312-357 | A fork that leaves its caller some quantum switches exactly if the child is above the caller, and always to the child |
| Policy.ExpiryPasses | Linux/so_scheduler.c:138-172 | A quantum used up in so_exec or in so_fork passes the processor to another thread if and only if a ready one, the new one included, has at least the caller's priority; the head of the queue is next; else nothing moves |
| Policy.ExecPassesToEqual | Linux/so_scheduler.c:395-397 | In so_exec it passes if and only if a ready thread has exactly the caller's priority |
| Policy.SignalWakes | Linux/so_scheduler.c:469-531 | so_signal returns how many it woke, leaves the others waiting, and nobody is lost between ready and running |
| Policy.WaiterMoves | Linux/so_scheduler.c:486-517 | At any call, a waiting thread is not the caller, and it leaves the waiting list if and only if the call is an accepted signal for its event; then it is ready, or runs at once, with its priority |
| Policy.WaitsForItsSignal | Linux/so_scheduler.c:407-460 | Over any run without an accepted signal for its event, a waiting thread stays in the list and makes no call |
| Rotation.RoundRobin | Linux/so_scheduler.c:138-172 | From any state with the permit and any quanta, after n so_exec calls: the turn k is the one that n falls in when each thread first has what is left of its quantum and then full quanta; the runner is number k mod the length of the cycle and has what is left of that turn; the queue is in rotation order; nobody behind the cycle has moved |
| Rotation.FullTurns | Linux/so_scheduler.c:384-398 | From full quanta, k = m / q and the runner has q - m mod q left, with m = n plus the part of the running quantum already used |
| Rotation.FairExactlyWhen | Linux/priority_queue.c:82-83 | Every ready thread of the running priority is the runner after some so_exec calls if and only if not two of them are queued in front of a lower tail |
| Rotation.RunnersAreTheCycle | Linux/priority_queue.c:62-91 | A thread is the runner after some so_exec calls if and only if it is in the cycle |
| Rotation.TurnComesInTime | Linux/so_scheduler.c:138-172 | Every thread of the cycle runs within q calls for each thread ahead of it |
| Rotation.UnfairRunExists | Linux/priority_queue.c:82-83 | A run from so_init with four forks, after which a ready thread of the running priority never runs while everybody computes |
| Rotation.CycleHasEquals | Linux/priority_queue.c:82-83 | The cycle holds every ready thread of the running priority if and only if not two of them are queued in front of a lower tail |
| Rotation.ExecsInTurn | Linux/so_scheduler.c:138-172 | The state after any so_exec calls, as turns that are over and charges of the present one |
| Rotation.TurnsAt | Linux/so_scheduler.c:138-172 | Position i after n turns holds element (n + i) mod the length of the cycle |
| Rotation.ExpiryTurns | Linux/priority_queue.c:62-91 | Re-queuing the runner and dispatching moves the first of the cycle to its end and leaves the rest of the queue alone |
| Rotation.CycleTakesTurns | Linux/priority_queue.c:62-91 | Which threads take turns: all, the runner and the head, or the runner alone |
| ReadyQueue.FirstComeFirstServed | Linux/priority_queue.c:62-91 | On a sorted queue a newcomer goes behind every equal element if and only if JumpsQueue is false |
| ReadyQueue.QueueJumpExample | Linux/priority_queue.c:82-83 | A concrete queue on which a newcomer overtakes an equal |
| ReadyQueue.InteriorPosition | Linux/priority_queue.c:78-91 | An interior insertion goes right after the first equal element, or before the first lower one if there is no equal |
| ReadyQueue.PushFront | Linux/priority_queue.c:62-64 | Into an empty queue, or above its head, an insertion goes in front |
| ReadyQueue.PushLast | Linux/priority_queue.c:65-66 | With the tail at or above the newcomer, and so the head too, an insertion goes last |
| ReadyQueue.PushSorted | Linux/priority_queue.c:47-95 | An insertion keeps a sorted queue sorted |
| ReadyQueue.PushElements | Linux/priority_queue.c:47-95 | An insertion adds exactly one element |
| ReadyQueue.PushAllKeeps | Linux/so_scheduler.c:493-505 | A series of insertions keeps the queue sorted and adds exactly those elements |
| ReadyQueue.Slot | Linux/priority_queue.c:78-91 | With a tail below the newcomer the insertion loop finds a place, the first at which it may stop |
| WaitList.WokenOnce | Linux/so_scheduler.c:491-505 | The waiters are split into woken and others with nobody lost or doubled |
| WaitList.WokenAndOthers | Linux/so_scheduler.c:491-505 | The woken are exactly the waiters for the event, the others exactly the rest |
| WaitList.InWaitingOrder | Linux/so_scheduler.c:491-505 | Each waiter lands, among the woken or the others, at the number of those of its kind that waited before it |
| WaitList.TakeFirst | Linux/linkedlist.c:173-221 | Removing the first match takes the first of the woken and leaves the others alone |
| LinkedLists.LinkedList.AddFirst | Linux/linkedlist.c:22-49 | Puts an element in front; head, tail, size and the chain stay right |
| LinkedLists.LinkedList.AddLast | Linux/linkedlist.c:58-85 | Puts an element last |
| LinkedLists.LinkedList.PopNode | Linux/linkedlist.c:173-221 | Takes out the first node that matches and no other, in the single, head, interior and tail cases, or changes nothing and returns null |
| LinkedLists.LinkedList.PopInside | Linux/linkedlist.c:199-220 | The interior and tail cases of the removal |
| LinkedLists.LinkedList.GetNode | Linux/linkedlist.c:147-164 | Finds the first node that matches, or null |
| LinkedLists.LinkedList.HasNode | Linux/linkedlist.c:122-138 | Whether a node matches |
| PriorityQueues.PushNode | Linux/priority_queue.c:47-95 | The pointer insertion computes the abstract one on every queue, sorted or not, and keeps the list well formed |
| PriorityQueues.InsertInside | Linux/priority_queue.c:68-94 | The interior case: the loop always finds its place, so the size it adds to is right |
| PriorityQueues.PopNode | Linux/priority_queue.c:102-119 | Takes off the head; no effect on an empty queue |
| PriorityQueues.Peek | Linux/priority_queue.c:127-133 | The head, if there is one |
| HashTables.HashTable.constructor | Linux/hashtable.c:115-143 | The new table is well formed and empty |
| HashTables.HashTable.Put | Linux/hashtable.c:154-200 | Putting a fresh key extends the map by it, for any hash function |
| HashTables.HashTable.GetValue | Linux/hashtable.c:249-267 | Returns what the map holds for the key, or nothing |
| HashTables.HashTable.HasValue | Linux/hashtable.c:222-240 | Whether the map has the key |
| HashTables.BucketGrows | Linux/hashtable.c:196-199 | With the new entry in front of its own bucket, each bucket again holds exactly its part of the map, each key once |
| Schedulers.SoInit | Linux/so_scheduler.c:182-207 | Rejects a zero quantum, more than 256 events, or a scheduler in use, and keeps that one; otherwise sets up the initial state with the quantum and number of events it is given |
| Schedulers.Replay | Linux/so_scheduler.c:182-531 | From so_init on, any run of calls performed on the heap leaves the state of the atomic machine, and each call posts and goes on as there |
| Schedulers.Perform | Linux/so_scheduler.c:216-531 | From any state of a run, any call performed on the heap gives the state and the outcome of the atomic machine, with no crash |
| Schedulers.Scheduler.SoFork | Linux/so_scheduler.c:260-377 | On the heap so_fork computes its atomic specification, posts and return value included |
| Schedulers.Scheduler.SoExec | Linux/so_scheduler.c:384-398 | On the heap so_exec computes its atomic specification |
| Schedulers.Scheduler.SoWait | Linux/so_scheduler.c:407-460 | On the heap so_wait computes its atomic specification |
| Schedulers.Scheduler.SoSignal | Linux/so_scheduler.c:469-531 | On the heap so_signal computes its atomic specification |
| Schedulers.Scheduler.WakeAll | Linux/so_scheduler.c:490-505 | The waking loop moves exactly the waiters for the event, in waiting order, counts them, and ends |
| Schedulers.Scheduler.AfterQuantum | Linux/so_scheduler.c:138-172 | Refill, re-queue and dispatch on the heap |
| Schedulers.Scheduler.PreemptBy | Linux/so_scheduler.c:323-348 | The head takes over and the running thread is queued after it is off the queue |
| Schedulers.Scheduler.ThreadEnd | Linux/so_scheduler.c:229-250 | On the heap the end of a handler computes its atomic specification |
| Schedulers.Scheduler.JoinAll | Linux/so_scheduler.c:541-553 | The walk visits the created threads in order, each once |

## Left out

- Printing, `perror` and `exit` paths, failing allocation, `free`, `sem_destroy`: no scheduling meaning.
- The inside of pthread, Win32 and semaphore calls: a semaphore is a number, a join waits for the end of its target.
- Calls outside the assumptions above: a second accepted fork from main, a call from outside a handler, a fork before `so_init`.
- `so_end` after its walk (freeing, zeroing the struct): one run from `so_init` to `so_end` is modelled.
- `so_end` before any fork is the same operation as the end of a handler: its one access reads an empty queue, which the code does not do.
- The function pointer of a handler: a thread in its handler may make any call at any time, or return. `Programs` adds the two cases where it may not: a function of what it has been told, and a finite tree. What threads tell each other in shared memory is not part of either.
- `remove_node_list` and `remove_entry_hashtable`, string hashing and comparison, `compare_ulong`, `free_entries`: the scheduler does not use them.
- The bits of `hash_function_ulong`: the table is proved for every hash function. The `deep_copy_value` path: never switched on.
- `ht->size`: it is kept as the code keeps it (it counts non-empty buckets) and nothing is claimed of it.
- HashTables.HashTable.Put: requires a key that is not there yet, because the code treats the stored value of an existing key as an entry and overwrites part of it; the scheduler's specification has `Crash` for that case and every run is proved not to reach it.
- The unsigned width of list sizes and of `num_threads`: unbounded here. The wrap-around of the quantum decrement is modelled.
- Schedulers.Scheduler.JoinAll: the walk on the heap with nobody else at work; the walk that interleaves with running threads is in `Protocol`.
- Schedulers.Scheduler.SoFork: like the other calls on the heap it requires that its specification does not crash, which the code does not test; `Schedulers.Perform` shows that in every state of a run it does not.
- The heap structures are not themselves interleaved: in `Protocol` an access to one structure (an insertion, a removal, a table lookup) is one step on its abstract value; that accesses by different threads never overlap is `Protocol.OneAtATime`.
