# Verified model of the MOLA actor runtime

MOLA is an actor runtime in C++ with a key-value store on top of it. This project models its
concurrent protocols and its word arithmetic in Dafny and proves what they keep over every run.
`dafny verify dfyconfig.toml` checks the whole project.

| files | component |
|---|---|
| `Words`, `Tally`, `Options` (in Words.dfy) | 32-bit words as residues of unbounded counters; counting; optional values |
| `TaskRing`, `WorkSteal`, `WorkStealSafety`, `WorkStealCounts`, `WorkStealOrder`, `WorkStealAlone`, `WorkStealLap` | work-stealing scheduler (default build variant) |
| `Mailbox`, `Activation`, `ActivationProgress` | actor mailbox, and who may run an actor |
| `LinkedQueue`, `LinkedQueueSpec`, `LinkedQueueProgress` | lock-free linked queue |
| `DistLock`, `DistLockOrder`, `DistLockProgress` | local lock layered over ZooKeeper sequence nodes |
| `Requests`, `ScatterGather`, `ScatterGatherNet`, `ScatterGatherLog`, `ScatterGatherTurns` | request ids, request contexts, scatter-gather |
| `Jenkins`, `JenkinsHash`, `JenkinsValue` | key hash; `JenkinsValue` pins the rotation constants, which no law of the hash depends on, by one published value |
| `KvStore`, `KvCluster` | buckets, routing, and all instances together as one map |
| `Framing` | messages over a fragmented byte stream |
| `NodeCache` | per-thread node caches against the shared node map |
| `HashRing`, `Random` | consistent hashing, random numbers |

## How the models are built

Concurrent code is a step machine: one step per atomic load, store, compare-and-swap or slot copy,
and one per critical section. A run is the machine under an arbitrary schedule, so a statement about
`Run` holds in every interleaving. Atomics are sequentially consistent. Code that one thread runs on
its own object is a class or a method with loops (`Mailbox.Box`, `Requests.Actor`, `KvStore.Vector`,
`KvStore.HashTable`, `Framing.StreamHandler`, `HashRing.Ring`, `Random.Generator`, the hash), proved
against functions that the machines and lemmas use as well.

Words stored modulo 2^32 are kept as unbounded counters of which the program sees the residue.
Some fields only record what happened (tasks enqueued, messages drained, turns taken); no test of a
program step reads them.

Premises, each of them part of a theorem's statement:

- A compare-and-swap on the head of a ring that succeeds finds the head it loaded, not one a multiple
  of 2^32 further on (`WorkSteal.NeverLapped`). `WorkStealLap.ConservedIffNeverStale` gives the exact
  condition without this premise.
- The capacity of a ring is even, below 2^31, and divides 2^32.
- No ZooKeeper session is lost and only the holder of a lock unlocks it. For a request to be granted
  the sequence numbers must fit an `int`, from whose largest value `get_least_seq` starts.
- Every message a request or scatter sent is answered at most once.
- Fewer than 2^32 request ids of one actor are in use at once. `Requests.WrapsExactlyWhenFull` says
  what the generator yields otherwise.

## Where the code does not do what one would expect

- An actor that is started automatically is put in a run queue while its mailbox is still blocked.
  A message that arrives early creates a second activation, and two workers run the actor at once.
  `Activation.ExclusiveIff` gives the exact condition on the start state.
- A scatter of which only some messages could be sent keeps its id for ever, as the comment in the
  code intends, but registers no context; the answer to such a message then fails an assertion in
  `invoke_message`. `ScatterGatherLog.AbortsIffPartialScatter`: an assertion can fail if and only if
  such a scatter can happen; `PartialScatterAborts`: it can fail after every such scatter.
- A watch event that comes after a request has listed the lock's nodes and before it has queued its
  retry finds nothing to run and is spent. The request then sleeps until its process gets another
  event, even if its node is the least one (`DistLockOrder.EarlyEventIsSpent`,
  `DistLockOrder.SpentEventLeavesASleeper`); a retry runs again exactly when such an event comes
  (`DistLockOrder.RetryWaitsForAnEvent`, `DistLockOrder.WatchRunsTheRetry`).
- A buffer of size 0 is never finished by the writer (`Framing.DrainsIffNoEmptyBuffer`). A message with
  an empty body is delivered itself but blocks the connection behind it: what has been sent can still
  arrive if and only if no message but the last has an empty body
  (`Framing.DeliverableIffNoEmptyBody`).
- A `delete_node` that finds its node already gone returns at once, perhaps while a thread still
  serves the entry from its cache. `NodeCache.FoundAgainIffServed` says exactly when the entry can
  still be found, and `NodeCache.ReturnedDeleteGuarantees` which returning deletions exclude it.
- A thief overtaken by exactly 2^32 advances of the victim's head succeeds with a stale batch. With two
  workers or more there is a run that returns a task twice (`WorkStealLap.LappedRunReturnsATaskTwice`).
- Removing a node from the hash ring removes whatever node has its hash value
  (`HashRing.AddRemoveRestoresIffFree`).

## Model

| member | source | states |
|---|---|---|
| `WorkStealSafety.NoTaskLostOrDuplicated` | include/mola/work_steal.hpp:409-517 | In every interleaving of enqueues, dequeues, spills and steals, each task was enqueued exactly as often as it sits in a ring, in a thread's hands, in the global queue, or was returned |
| `WorkStealOrder.GlobalQueueIsFifo` | include/mola/work_steal.hpp:358-415 | In every run, whatever the spills and interleavings, the tasks pushed to the global queue are those popped from it, in order, followed by those still in it; so a pop returns the oldest task and a spilled batch keeps its order |
| `WorkStealOrder.RingsAreFifo` | include/mola/work_steal.hpp:418-517 | In every run and for every ring, the tasks put on it by enqueues and as rests of stolen batches are those taken from it, one by one, spilled or stolen, in order, followed by those still in it |
| `WorkStealAlone.EnqueueAlone` | include/mola/work_steal.hpp:436-473 | From every reached state an enqueue that runs alone appends its argument to the ring; of a full ring the older half and then the argument go to the end of the global queue |
| `WorkStealAlone.GlobalEnqueueAlone` | include/mola/work_steal.hpp:358-366 | From every state a global enqueue that runs alone appends its task to the global queue and counts it in both counters |
| `WorkStealAlone.DequeueAlone` | include/mola/work_steal.hpp:39-88 | From every reached state a dequeue that runs alone returns the oldest task of its ring, else the oldest of the global queue, else of the ring it picks the last of the older half rounded up, whose other tasks move to its own ring in order |
| `WorkStealSafety.StepKeeps` | include/mola/work_steal.hpp:39-104 | One atomic step of any thread keeps the ring invariant and the balance of every class of tasks, unless it swaps in a stale batch |
| `WorkStealSafety.StolenBatchIsCurrent` | include/mola/work_steal.hpp:475-517 | When a steal's compare-and-swap is about to succeed, the slots it copied are the victim's oldest tasks, none of them stale |
| `WorkStealSafety.RingArithmetic` | include/mola/work_steal.hpp:436-517 | Across wrap-around: occupancy never exceeds N, the words give it exactly, temporary arrays are not overrun, the assertion after a steal holds |
| `WorkStealSafety.PollingWorkerIsEmpty` | include/mola/work_steal.hpp:39-62 | A worker that polls, steals or sleeps has an empty ring of its own |
| `WorkStealLap.ConservedIffNeverStale` | include/mola/work_steal.hpp:475-517 | In every run no task is ever lost or duplicated if and only if no thief swaps in a batch other than the victim's oldest tasks; a run without laps has no such swap |
| `WorkStealLap.StaleBreaks` | include/mola/work_steal.hpp:475-494 | A stale batch always loses or duplicates some task |
| `WorkStealLap.LappedRunReturnsATaskTwice` | include/mola/work_steal.hpp:475-494 | From every initial state with two workers or more, for any capacity, some run returns a task twice that was enqueued once: the owner advances head by 2^32 while a thief is stopped before its compare-and-swap |
| `TaskRing.RejectsExactlyTorn` | include/mola/work_steal.hpp:475-494 | The size test of a steal rejects exactly the torn snapshots, and an accepted one fits the temporary array |
| `TaskRing.TakeFresh` | include/mola/work_steal.hpp:418-434 | Advancing head past a fresh batch removes exactly that batch from the queue |
| `TaskRing.Publish` | include/mola/work_steal.hpp:455-517 | Advancing tail past written slots adds exactly their tasks |
| `TaskRing.FreshStable` | include/mola/work_steal.hpp:475-494 | A batch copied under the loaded head stays the front of the queue whatever other threads do, as long as head stands |
| `WorkStealCounts.CountersTrackTasks` | include/mola/work_steal.hpp:81-104 | Modulo word size the job counter is the outstanding tasks less uncounted enqueues; the queue counter is the deque length less uncounted pushes |
| `WorkStealCounts.CountersExactWhenQuiet` | include/mola/work_steal.hpp:358-415 | Both counters are exact when no enqueue is in progress |
| `WorkStealCounts.LastWorkerKeepsPolling` | include/mola/work_steal.hpp:64-78 | The sleeper count is the number of workers in the sleep section, at most all of them, and some worker is always outside the untimed wait |
| `WorkStealCounts.NobodySleepsOnABacklog` | include/mola/work_steal.hpp:64-78 | In every run, when a worker goes to sleep the counted jobs are no more than the workers; with more it polls again |
| `Activation.ExclusiveIff` | include/mola/actor.hpp:78-143 | Two workers never execute the actor at once, in any interleaving, if and only if the start state has at most one activation, a blocked mailbox counting as one; dispatch-created actors qualify, autostarted ones do not |
| `Activation.PotentialStep` | include/mola/actor.hpp:253-271 | No step creates an activation: a push trades the blocked mark for one, `try_block` trades it back |
| `Activation.DeliveredAndWoken` | include/mola/mailbox.hpp:74-166 | For dispatch-created actors: exactly one activation when not blocked and none when blocked; output is the drained batches in order, each stably sorted by priority; each priority is FIFO; when blocked, everything pushed has been handed out |
| `ActivationProgress.EverySendArrives` | include/mola/actor.hpp:253-271 | In every run a message was sent exactly as often as it has arrived or is in the hands of a producer |
| `ActivationProgress.HandedOutIsExecuted` | include/mola/actor.hpp:78-143 | In every run the messages executed are those handed out, each once and in that order |
| `ActivationProgress.AllCanBeHandedOut` | include/mola/actor.hpp:78-143 | From every reached state of a dispatch-created actor with a worker, some continuation hands out all that arrived and blocks the mailbox |
| `ActivationProgress.BudgetEndsTheTurn` | include/mola/actor.hpp:78-143 | From every state a worker without message budget lets go of the actor within four steps of its own: it blocks an empty mailbox, and otherwise puts the actor back on a run queue |
| `Activation.EmitFifo` | include/mola/mailbox.hpp:91-148 | Sorting batch by batch keeps, for each priority, the order of the pushes |
| `Mailbox.SortedIsFifoPerPrio` | include/mola/mailbox.hpp:117-146 | Within a batch messages of one priority keep their order of arrival |
| `Mailbox.SortedByPrio` | include/mola/mailbox.hpp:91-146 | A batch leaves the mailbox in nondecreasing order of priority level |
| `Mailbox.CountedIsThere` | include/mola/mailbox.hpp:91-112 | The assertion that the private queues are empty although the count is not zero cannot be reached |
| `Mailbox.TakeIsFirst` | include/mola/mailbox.hpp:91-112 | What is taken is the first message left; the rest stays in order |
| `Mailbox.FillIsSorted` | include/mola/mailbox.hpp:117-146 | Reversing the stack into the lists stably sorts the batch |
| `Mailbox.Box.Enqueue` | include/mola/mailbox.hpp:74-89 | A push is appended to the arrivals and reports whether it unblocked the mailbox |
| `Mailbox.Box.Dequeue` | include/mola/mailbox.hpp:91-148 | Returns the first message of the private lists, else of the freshly sorted batch, else none; nothing is lost or reordered |
| `Mailbox.Box.TryBlock` | include/mola/mailbox.hpp:154-166 | Blocks exactly when no message is left in the private lists or on the stack and the mailbox is not blocked already; no message is lost, and afterwards the mailbox is blocked iff it was or this call did it |
| `LinkedQueue.StepKeeps` | include/mola/queue.hpp:124-170 | Every atomic access keeps the chain of nodes and every other thread's knowledge of it |
| `LinkedQueueSpec.StepRefines` | include/mola/queue.hpp:124-170 | Every atomic access is nothing or one step of the atomic FIFO queue |
| `LinkedQueueSpec.NoNextMeansEmpty` | include/mola/queue.hpp:148-170 | A null result has a moment at which the queue was empty |
| `LinkedQueueSpec.TakenItemIsThere` | include/mola/queue.hpp:148-170 | The item of a taken node is still there when its taker reads it |
| `LinkedQueueSpec.EveryHistoryIsAtomic` | include/mola/queue.hpp:82-170 | Every history is one of the atomic queue; head never passes tail, tail lags by at most one node, the items taken are a prefix of the items linked |
| `LinkedQueueProgress.EveryCallCanReturn` | include/mola/queue.hpp:124-170 | From every reached state a call returns within 21 steps of its own if the other threads pause, wherever they are |
| `LinkedQueueProgress.HistoryHoldsTheCalls` | include/mola/queue.hpp:124-170 | In every run the calls in the history are those the callers made, with their items and in order |
| `DistLock.LeastSeq` | src/zookeeper.cpp:495-509 | Returns the least sequence number of the children in whatever order they are listed |
| `DistLock.MutualExclusion` | src/zookeeper.cpp:430-558 | Across processes and local requesters at most one callback is granted and not yet unlocked, whatever the order of watch events, releases and barging |
| `DistLock.EveryCallbackIsInOnePlace` | include/mola/zookeeper.hpp:37-58 | A callback is in its wait queue once when queued and not otherwise; at most one per process is inside the local lock |
| `DistLockOrder.WatchRunsTheRetry` | include/mola/zookeeper.hpp:41-53 | In every run a request that waits to retry is first in its process's wait queue, so a watch event there makes it try again and changes no other request |
| `DistLockOrder.RetryWaitsForAnEvent` | src/zookeeper.cpp:549-557 | From every reached state a request that waits to retry stays so in every continuation without a watch event in its process |
| `DistLockOrder.EarlyEventIsSpent` | src/zookeeper.cpp:540-557 | From every reached state: an event between the listing and the queueing of a retry finds nothing to run, and the request sleeps through every continuation without another event |
| `DistLockOrder.SpentEventLeavesASleeper` | src/zookeeper.cpp:540-557 | There is a run from a start state after which a request sleeps in this way although its node is the least one |
| `DistLockOrder.WaitersAreFifo` | include/mola/spinlock.hpp:113-137 | In every run and process the requests that began to wait for the local lock are those that ceased to, in order, followed by those that still wait |
| `DistLockProgress.NobodyIsForgotten` | include/mola/spinlock.hpp:113-137 | In every run, where the local lock is free and requests wait one of them has been woken, and every live node is that of some process |
| `DistLockProgress.EveryRequestCanBeGranted` | src/zookeeper.cpp:430-558 | From every reached state every request not granted yet is granted by some continuation in which watch events may arrive |
| `DistLock.UnlockFindsItsNode` | src/zookeeper.cpp:457-479 | The node that `unlock` deletes is alive |
| `Requests.IssueOk` | include/mola/actor.hpp:149-156 | A new id is nonzero, had no context, was not held, and is held afterwards; every id stays in one place |
| `Requests.IssueUndoesRelease` | include/mola/actor.hpp:149-166 | The id released last is the next one issued, and issuing it restores the table |
| `Requests.InsertOk` | include/mola/actor.hpp:168-172 | A held id has no context, so the assertion of `insert_req_ctx` holds |
| `Requests.IdsAreDisjoint` | include/mola/actor.hpp:149-186 | Live and held ids are disjoint and nonzero; every recycled id is nonzero, neither live nor held, and recycled once |
| `Requests.WrapsExactlyWhenFull` | include/mola/actor.hpp:149-156 | The next id is valid if and only if one can be recycled or fewer than 2^32 - 1 were ever issued; beyond that the generator yields 0 and then an id in use |
| `Requests.Actor.NewReqid` | include/mola/actor.hpp:149-156 | Takes the last recycled id or the next of the generator; afterwards the id is held |
| `Requests.Actor.InsertReqCtx` | include/mola/actor.hpp:168-172 | Registers a context under a held id, which is proved to be free |
| `Requests.Actor.DeleteReqCtx` | include/mola/actor.hpp:174-181 | A done context disappears and its id is recycled; another stays |
| `Requests.Actor.DispatchRequest` | src/dispatcher.cpp:106-166 | A sent request gets one context that remembers the initiator; a failed one releases its id; without a reply or with an id nothing changes |
| `Requests.Actor.ScatterToIntf` | src/dispatcher.cpp:348-375 | Returns -3, -4 or 0 exactly for no messages, null or unsent messages, success; one gather context on success, none on failure, whose id stays held |
| `Requests.Actor.FillGroup` | src/message.cpp:220-232 | Counts the non-null messages |
| `Requests.Actor.GatherReply` | src/dispatcher.cpp:379-429 | Appends the reply; the group is handed over exactly when complete, in order of arrival |
| `Requests.Actor.GatherDone` | src/dispatcher.cpp:420-423 | After the callback the context is gone and its id recycled |
| `ScatterGatherLog.IdsNeverClash` | src/message.cpp:234-264 | In every run each id is in one place; ids of failed scatters are never issued again; nothing is under way to a recycled id |
| `ScatterGatherLog.GatherExactlyOnce` | src/dispatcher.cpp:379-429 | In every run and for every scatter of n: the callback ran once if all n answers came and not otherwise, in the turn of the n-th, on exactly those n in order of arrival |
| `ScatterGatherLog.RepliesReachTheInitiator` | src/module.cpp:205-231 | Every reply carries the request id of the message that started the chain and goes to its sender, as a gather message iff that was scattered, at any nesting depth and through fibers |
| `ScatterGatherTurns.EveryReturnIsAnsweredOnce` | src/module.cpp:205-231 | In every run, for plain turns, fibers and gather callbacks, a turn that returned a message has exactly one reply, to the origin of its chain, and any other turn has none |
| `ScatterGatherTurns.EveryMessageIsExecutedOnce` | include/mola/actor.hpp:94-122 | In every run the messages that arrive, requests and answers, are executed in one turn each, in order of arrival |
| `ScatterGatherTurns.OwedIsSentLessAnswered` | src/dispatcher.cpp:106-166 | In every run the answers under way are as many as the messages sent that have not been answered |
| `ScatterGatherTurns.ContextsAreMade` | src/dispatcher.cpp:348-375 | In every run the contexts made are those of the requests, full scatters and fibers, in order and with their sizes; as many ids are held for ever as scatters failed |
| `ScatterGatherLog.AbortsIffPartialScatter` | src/module.cpp:182-195 | Whichever scatters may happen: some run fails an assertion on message types if and only if some scatter may send a part of its messages and not all |
| `ScatterGatherLog.PartialScatterAborts` | src/dispatcher.cpp:348-375 | From every state of every run in which a scatter sends a part of its messages, the end of the turn and one answer lead to a failed assertion |
| `ScatterGatherLog.RunNoneLate` | src/message.cpp:250-264 | In a run without such a scatter every answer under way has its context and no assertion fails |
| `ScatterGatherNet.AnswerIsDue` | include/mola/actor.hpp:94-122 | An answer under way finds the context it was sent for, and that context waits for it |
| `ScatterGatherNet.RecycledIsQuiet` | include/mola/actor.hpp:174-181 | No answer is under way to an id that is neither live nor held |
| `ScatterGatherLog.InitiatorIsOrigin` | include/mola/actor.hpp:189-216 | What a context made in a turn remembers is the message that started the turn's chain |
| `ScatterGather.ReturnedOk` | include/mola/strong_actor.hpp:172-211 | The end of a turn, on the thread, in a gather callback or on a fiber, keeps every id in one place |
| `Jenkins.MixIsReversible` | KV-Store/app/Hash/Hash.c:21-29 | `mix` is a permutation of triples of words, with an explicit inverse on both sides |
| `Jenkins.FinalIsReversible` | KV-Store/app/Hash/Hash.c:30-39 | `final` is a permutation of triples of words, with an explicit inverse on both sides |
| `JenkinsHash.HashWords` | KV-Store/app/Hash/Hash.c:261-305 | The 32-bit path gives the hash of the bytes of the key, whatever the masked-off bytes are |
| `JenkinsHash.HashHalves` | KV-Store/app/Hash/Hash.c:328-374 | The 16-bit path gives the same hash |
| `JenkinsHash.HashBytes` | KV-Store/app/Hash/Hash.c:376-416 | The byte path gives the same hash |
| `JenkinsHash.JenkinsHash` | KV-Store/app/Hash/Hash.c:250-421 | For every byte string, alignment and trailing memory the result is one function of the bytes, whose start state and length dependence are fixed by `OneByteMore`, `EmptyKey` and `LengthShows` |
| `JenkinsHash.OneByteMore` | KV-Store/app/Hash/Hash.c:258 | One byte more in the length adds exactly one to each word of the start state |
| `JenkinsHash.EmptyKey` | KV-Store/app/Hash/Hash.c:258 | The empty key hashes to 0xdeadbeef |
| `JenkinsHash.LengthShows` | KV-Store/app/Hash/Hash.c:258 | A key with a partial last block and the same key with a zero byte more never end in the same internal state, although their words are the same |
| `JenkinsHash.LowIsPack` | KV-Store/app/Hash/Hash.c:289-305 | Masking a loaded word leaves no trace of the bytes past the end |
| `JenkinsHash.OneBlockAlwaysShows` | KV-Store/app/Hash/Hash.c:178-184 | Keys of one length that differ in a single 12-byte block never end in the same internal state |
| `JenkinsHash.CollisionShowsElsewhere` | KV-Store/app/Hash/Hash.c:178-184 | Two such keys have equal hashes only if their end states agree in the word that is returned and differ in another |
| `JenkinsHash.FinishedInjective` | KV-Store/app/Hash/Hash.c:178-184 | For a fixed rest of the key the end state determines the state before it |
| `KvStore.LookupStored` | KV-Store/app/HashTable/HashTable.c:77-126 | A set changes what is found under its own key and under no other |
| `KvStore.VecSetOk` | KV-Store/app/HashTable/HashTable.c:77-126 | A set keeps the keys of a bucket distinct and its entries within the slots, through every doubling |
| `KvStore.SlotsAreDoubled` | KV-Store/app/HashTable/HashTable.c:103-112 | The slots of a bucket are none, or four doubled some number of times, and grow only when there are none or all are used |
| `KvStore.Vector.Get` | KV-Store/app/HashTable/HashTable.c:46-75 | The search loop finds the value of the key or reports its absence |
| `KvStore.Vector.Reserve` | KV-Store/app/HashTable/HashTable.c:103-112 | Growing keeps the entries; there are four slots at first and then twice as many, in the same or a new array |
| `KvStore.Vector.Set` | KV-Store/app/HashTable/HashTable.c:77-126 | In place: overwrites the key's entry or adds one, with entries and slots as the value-level set gives them |
| `KvStore.HashTable.OnGetReq` | KV-Store/app/HashTable/HashTable.c:46-75 | Finds what the bucket selected by the hash holds under the key |
| `KvStore.HashTable.OnSetReq` | KV-Store/app/HashTable/HashTable.c:77-126 | Sets the key in the bucket selected by the hash; every other bucket stays as it was |
| `KvStore.RoutesInRange` | KV-Store/app/HashTable/HashTable.c:52-54 | For all powers with instances <= actors <= 32 and every hash, instance and bucket index are in range |
| `KvStore.RouteIsLowBits` | KV-Store/app/HashTable/HashTable.c:52-54 | Bucket and instance together are exactly the low bits of the hash, so different low bits never share a bucket |
| `KvStore.RouteIsMaskAndShift` | KV-Store/include/common.h:87-91 | For all powers up to 32 and every hash, instance and bucket are what the masks and shifts on the bits give; as built both masks are 0xffff |
| `KvStore.RouteRequest` | KV-Store/app/Hash/Hash.c:125-168 | Set and get reach the same place for a key even when their buffers are aligned differently |
| `KvCluster.ServeBuffers` | KV-Store/app/Hash/Hash.c:125-168 | Requests given as key buffers in memory are hashed, routed and answered as by one map over the key bytes; buffers with the same key are one key, whatever their alignment and the memory behind them |
| `KvCluster.Serve` | KV-Store/app/HashTable/HashTable.c:15-126 | For any hash function and powers, the table objects created on demand answer every sequence of sets and gets as one map would |
| `KvCluster.SetKey` | KV-Store/app/HashTable/HashTable.c:77-126 | A set through routing changes the one map at its key; the instances keep sharing nothing and every key stays where it is routed |
| `KvCluster.GetKey` | KV-Store/app/HashTable/HashTable.c:46-75 | A get through routing returns what the one map holds |
| `KvCluster.SetSame` | KV-Store/app/Hash/Hash.c:125-168 | If all buckets together answer as a map, then after a set in the routed bucket they answer as the changed map |
| `Framing.WriteConserves` | include/mola/event_handler.hpp:231-281 | Whatever the socket accepts, bytes come out in order, none lost or repeated |
| `Framing.WriteManyConserves` | include/mola/event_handler.hpp:231-281 | Over any number of calls of write the bytes out and the bytes pending together stay the same |
| `Framing.DrainsIffNoEmptyBuffer` | include/mola/event_handler.hpp:258-276 | Some sequence of writes finishes everything accepted if and only if no buffer is empty |
| `Framing.ParseAppend` | include/mola/event_handler.hpp:202-223 | Reading in two parts is reading the whole |
| `Framing.ParseEncode` | include/mola/gateway.hpp:57-154 | Parsing the bytes of messages gives those messages and leaves the receiver ready for the next |
| `Framing.HeaderRoundTrip` | include/mola/c/mola_message.h:80-87 | From a header laid out field by field the receiver reads back the size, and its mark replaces the data type field and nothing else |
| `Framing.HelloRoundTrip` | include/mola/gateway.hpp:57-72 | The receiver of a handshake reads back the node id of the other side |
| `Framing.DeliversWhatWasSent` | include/mola/gateway.hpp:57-154 | For every pattern of partial writes and reads and every order of senders, after any handshake, what was delivered is a prefix of what was sent, and all of it once every byte is through |
| `Framing.DeliverableIffNoEmptyBody` | include/mola/event_handler.hpp:258-276 | At every point of every run some continuation delivers all that has been sent if and only if no message but the last has an empty body |
| `Framing.EmptyBodyBlocks` | include/mola/event_handler.hpp:258-276 | From every reached state, under every schedule, nothing sent after a message with an empty body is delivered |
| `Framing.SecondNeverArrives` | include/mola/event_handler.hpp:258-276 | A run from the start: after a message with an empty body a second one is sent and never delivered, whatever follows |
| `Framing.StreamHandler.AsyncWrite` | include/mola/event_handler.hpp:284-309 | The linked buffers of a message are appended to the pending bytes as one piece |
| `Framing.StreamHandler.WriteSome` | include/mola/event_handler.hpp:235-276 | One call of write: what goes out and what is left |
| `Framing.StreamHandler.HandleWrite` | include/mola/event_handler.hpp:225-281 | Writes until the mailbox is empty or a call leaves its buffer unfinished; the bytes written and the bytes pending together stay the same, in order |
| `Framing.StreamHandler.HandleRead` | include/mola/event_handler.hpp:200-223 | A read event delivers what the reference parser finds in its bytes |
| `NodeCache.StepKeeps` | include/mola/scheduler.hpp:49-83 | Every step keeps: a cached entry is in the map, or its cache is invalid, or its deleter has yet to tell that thread |
| `NodeCache.DeletedIsNotFound` | src/node_manager.cpp:324-355 | No `find_node` returns an entry whose deletion had returned when the call began, although flags are cleared and set concurrently |
| `NodeCache.DeletedIsNeverFoundAgain` | src/zookeeper.cpp:312-324 | In every run, once a deletion that erased an entry has returned, no thread that is between calls then answers with the entry again |
| `NodeCache.MapAnswers` | src/node_manager.cpp:342-354 | At every point of every run a call under the lock answers the entry the map then holds for the id asked, and none exactly if neither map nor registry knew it; no other entry of the map changes |
| `NodeCache.AnswersHaveTheId` | src/node_manager.cpp:324-355 | In every run an answered entry has the id asked for, and an answer from the cache is one an earlier call of the same thread got from the map for that id |
| `NodeCache.EveryCallIsAnswered` | src/node_manager.cpp:324-355 | In every run a thread answers its calls in order, each once and under the id it was asked for |
| `NodeCache.ColdCallWarms` | include/mola/scheduler.hpp:49-83 | From every reached state a call on an invalidated cache clears it, answers from the map and leaves it trusted with just that entry |
| `NodeCache.FoundAgainIffServed` | include/mola/scheduler.hpp:49-83 | From every state of every run, an erased entry is returned by some later call if and only if some thread trusts a cache that holds it or is looking it up there |
| `NodeCache.ReturnedDeleteGuarantees` | src/zookeeper.cpp:312-324 | With all threads between calls: found again if and only if some trusted cache holds it, and never again if every deletion of it under way has told all threads |
| `NodeCache.ToldIsUntrusted` | src/zookeeper.cpp:312-324 | A thread told of the deletion does not trust a cache that holds the entry |
| `NodeCache.SecondDeleteMayReturnEarly` | src/zookeeper.cpp:312-324 | There is a run from a start state in which a second deletion has returned and a later step still returns the entry |
| `HashRing.Ring.Insert` | include/mola/consistent_hashing.hpp:49-52 | The node is added in order unless its hash value is taken, and the result says which |
| `HashRing.Ring.Erase` | include/mola/consistent_hashing.hpp:60-63 | Exactly the nodes with another hash value remain; the result is the number removed |
| `HashRing.Ring.Find` | include/mola/consistent_hashing.hpp:65-77 | Returns the owner of the hash value: the node at its lower bound, the first one past the end, none on an empty ring |
| `HashRing.OwnerIsNearest` | include/mola/consistent_hashing.hpp:65-77 | The owner is the node at the least clockwise distance, and there is none exactly on an empty ring |
| `HashRing.InsertMovesOnlyToNewNode` | include/mola/consistent_hashing.hpp:49-77 | After an insert a lookup returns the new node where it is nearer than the old owner, and the old owner everywhere else |
| `HashRing.EraseMovesOnlyFromOldNode` | include/mola/consistent_hashing.hpp:60-77 | After an erase every lookup that did not return the erased node returns what it did before |
| `HashRing.AddRemoveRestoresIffFree` | include/mola/consistent_hashing.hpp:49-77 | Adding and then removing a node leaves every lookup as it was if and only if its hash value was free |
| `HashRing.AddAndRemove` | include/mola/consistent_hashing.hpp:49-77 | The same of the ring object: find, insert, erase, find return the same node if the hash value was free, and different ones at a taken value |
| `Random.StepsAreInvertible` | include/mola/scheduler.hpp:115-118 | Each step can be taken back: the multiplier is invertible modulo 2^32 - 5 |
| `Random.SeedIsKept` | include/mola/scheduler.hpp:109-113 | A seed in range is used unchanged; the others are reduced, and 0 becomes 1 |
| `Random.NeverCollapses` | include/mola/scheduler.hpp:110-118 | From any seed all states stay in 1..2^32-6, and distinct states stay distinct |
| `Random.Generator.Draw` | include/mola/scheduler.hpp:115-118 | The 64-bit product does not overflow and the state stays in range |

## Left out

- Fairness and liveness: beside safety only the possibility of progress is stated (some continuation exists, or a thread that runs alone finishes), not that a scheduler brings it about.
- DistLockProgress.EveryRequestCanBeGranted: watch events may arrive at any time; which event a deletion sends to which process is not modelled.
- Weak memory effects: atomics are sequentially consistent.
- Update in place of the concurrent structures: rings, mailbox stack, linked queue and caches are values that steps replace, because several threads change them; the fields and accesses are those of the code.
- The condition variable behind sleeping workers: a wait may end at any time, so only the counters around it are modelled.
- The deque behind the global queue: a push or pop under its lock is one step.
- The other scheduler variants in include/mola/work_steal.hpp: the default build does not use them.
- Work-stealing victim selection: any victim may be chosen at any time.
- `Mailbox::close`, actor exit and teardown: error paths outside the steady state.
- LinkedQueueSpec.EveryHistoryIsAtomic: nodes are never freed while the queue is in use, so reuse of addresses is not modelled.
- DistLock.MutualExclusion: does not model session loss, nor an unlock by someone who does not hold the lock; a lock already held by the process is waited for in a queue whose operations are single steps.
- The generated gather wrapper: taken as `InsertToGatherCtx` followed by `SwitchToGatherCtx`, returning no message of its own.
- Gather interfaces on fibers: a gather callback that blocks on a fiber is not modelled; gather interfaces run on the thread.
- Events (`CreateEvent`, `NotifyEvent`), `Subscribe` and `SaveReturnState`: they reuse request ids outside the answered-once discipline.
- Requests.Actor.NewReqid: requires that an id is free; what the code yields otherwise is stated by `Requests.WrapsExactlyWhenFull`.
- Where a fiber starts: a synchronous interface may start its fiber at any point of its turn, which allows more runs than the code.
- KvCluster.Serve: the table of instances is a value handed from request to request, because the runtime keeps it, not the store; requests run one at a time.
- KvStore.Vector.Reserve: allocation never fails and sizes do not overflow.
- Framing.DeliversWhatWasSent: input and output errors, which close the connection, are left out; header bytes are taken as little-endian.
- The lock around writing: a WRITE event that finds it taken is retried by the code and is no step here.
- Resynchronisation of the node map (`m_need_sync`) and queries by module: only `find_node` and `delete_node` are modelled.
- Header byte-order conversion for big-endian peers: only little-endian headers are modelled.
- Width of the ring's hash type: hash values are taken below 2^64; no statement depends on the width.
- The memcached-style text parsing, `dlopen` module loading, fiber context switching, sockets and polling: outside the modelled protocols.
- Name service, location tables, timers, the delay pool, options and logging: lookups and settings without a protocol of their own, some of them unfinished in the source.
- include/mola/station.hpp: a near copy of the actor.
