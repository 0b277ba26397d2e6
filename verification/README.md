# naarad, modelled and proved in Dafny

naarad watches one directory from the kernel, turns what it sees into messages, counts them,
keeps the newest ones for a terminal table and sends all of them through a dispatcher to groups
of consumer processes. This project models its stateful parts and proves what they promise.

- **The lock-free event queue, concurrently** (`QueueMachine`, `QueueInvariant`, `QueueSteps`,
  `QueueCalls`, `QueueAccounts`, `QueueTheorems`, `QueueEviction`, `QueueSolo`, `QueueProgress`,
  `QueueOverrun`). A transition system with one step for each atomic load, compare-and-swap or counter update, for any number of threads and any capacity. A thread
  has a program counter and locals; a weak compare-and-swap may fail spuriously; a schedule
  chooses the thread and the outcome of every step. Auxiliary state that no step branches on
  records the nodes in the order they were linked, the operations in the order they took effect,
  and the calls that returned. All atomics of the code use the sequentially consistent default,
  so interleaving is the memory model.
- **The same queue, seen by one thread** (`EventQueue`). A class over linked nodes with the code's
  loops, including a tail that lags because the swing after a link failed spuriously.
- **The dispatcher and its consumers** (`DispatchMachine`, `DispatchInvariant`, `Dealing`,
  `DispatchPipes`, `DispatchTheorems`, `DispatchAnswers`, `DispatchDeficit`). A step system of a
  message queue, the dispatcher, and for each consumer two first-in-first-out pipes, for any number of groups and of consumers in a group. The environment
  chooses arrivals, time-outs and failing calls. `Processes` gives the dispatcher and a consumer as
  the loops they are and proves each to be a run of the step system; `Descriptors` is the
  fork-and-close start-up that sets the pipes up.
- **From the kernel to the queue** (`FileMonitor`, `OperationTable`, `Counters`, `Intake`): the
  kernel hooks with their inode cache and scratch record, the operation table with its life
  cycle, the counters and bars, and the event handler that ties them together.

`Messages` holds the record and its codes, `Options` the option type.

Four results are about behaviour that a reader of the repository might not expect.

- The kernel side reports `symlink`, the table holds `syslink`, so symlink events are never
  recognised (`OperationTable.SymlinkUnknown`, `Intake.ReportsRecognised`).
- `displayEntries` can write its terminator behind its array. Called by itself it does so exactly
  when at least as many entries are queued as the queue may hold (`EventQueue.Dequeue.DisplayEntries`,
  `EventQueue.FullQueueOverruns`). Beside other threads it does so exactly when the entries queued
  as it loads `head`, together with those pushed before its last look at a `next` pointer, reach that
  number (`QueueTheorems.TraversalOverruns`); so it may even though the queue is never that long
  (`QueueOverrun.ShortQueueOverruns`).
- The acknowledgement deficit of a consumer, which one would expect never to shrink, does: the
  dispatcher reads an acknowledgement even in a round whose write failed, and takes an old one for
  the answer (`DispatchDeficit.DeficitCanShrink` is such a run; `DispatchDeficit.RoundDeficit` says
  for every round exactly when). This presupposes that SIGPIPE is ignored, since a write that fails
  otherwise ends the dispatcher.
- The dispatcher and a consumer can wait for each other for ever, both pipes between them being
  full (`DispatchPipes.JamPossible`). For that as many waits on the consumer must have failed as a
  pipe holds messages (`DispatchPipes.JamNeedsSkips`); nothing else brings the processes to a halt
  (`DispatchTheorems.NoDeadlock`).

Assumptions. In the concurrent queue an address is not handed out a second time and a freed node
stays readable: `popFront` frees the old dummy at once and nothing in the code keeps other threads
off it, so without the assumption none of the safety results can be claimed. A `Message` has 296
bytes, fewer than the 512 that PIPE_BUF is at least (POSIX.1-2017, System Interfaces, section 3,
`write()`), so messages are written and read whole. All sends use priority 0, so the message queue is
first in, first out (same section, `mq_receive()`). Except for a stop, a message on the queue has a
category below the number of groups; include/message_queue/message.c:148 does not check this, and
`Intake.CodesStayApart` shows that the event handler sends only category 0.

## Model

| member | source | states |
|---|---|---|
| QueueTheorems.Linearizable | include/tui/lock_free_queue.c:25-78 | under every schedule of any number of threads the order in which operations took effect is a run of a sequential FIFO queue that ends in the entries now reachable from `head`; every returned call reported a result that answers that very call and its argument, and performed exactly the operations it reported between its start and its end, an "empty" being true at a moment in between; no thread's operations are missing or invented |
| QueueCalls.ActRecords | include/tui/lock_free_queue.c:25-113 | each step keeps the message or the reason a thread works with equal to those of the call it was asked for; a return is recorded for that call, with a result of its kind: a push reports on the message it was given, a pop what it took or that there was nothing, a traversal what it met |
| QueueCalls.CallsKept | include/tui/lock_free_queue.c:25-113 | each step keeps it true that every recorded result answers the call it was recorded for |
| QueueTheorems.FifoOrder | include/tui/lock_free_queue.c:25-78 | what was taken out, followed by what is still queued, is what was put in: nothing lost, duplicated or reordered |
| QueueTheorems.QueuedIsContents | include/tui/lock_free_queue.c:86-104 | following `next` from `head` meets exactly the queued messages, and their number is the length of the chain |
| QueueTheorems.WellShaped | include/tui/lock_free_queue.c:34-50 | in every reachable state `tail` is reachable from `head` and is the last or second-to-last node, and no thread ever dereferences NULL or an address never allocated (in particular `next->msg` in a pop) |
| QueueTheorems.WriteOnce | include/tui/lock_free_queue.c:30-39 | whatever runs later, a `next` pointer that is set never changes again, and neither does a node's message |
| QueueTheorems.SizeAndBound | include/tui/lock_free_queue.c:39-47 | the counter is the length minus pushes not yet added plus pops not yet subtracted; the length exceeds the capacity at most by pushes not yet counted or still owing an eviction, so never by more than the number of threads, and not at all when all threads are idle |
| QueueEviction.EvictsOnlyWhenFull | include/tui/lock_free_queue.c:41-47 | under every schedule a push goes to evict only if at some moment during it the queue held at least the capacity plus two entries less the number of threads; with one thread, one entry more than the capacity |
| QueueEviction.PushAloneAppends | include/tui/lock_free_queue.c:25-54 | a push that runs alone from a moment at which no call is under way and fewer entries than the capacity are queued leaves these followed by its message and takes none out, whichever of its compare-and-swaps fail spuriously |
| QueueEviction.FailsOnlyWithoutMemory | include/tui/lock_free_queue.c:26-29 | where every allocation succeeds no push and no traversal reports a failure, whatever the schedule |
| QueueTheorems.NodesFreedOnce | include/tui/lock_free_queue.c:70-73 | no node is freed twice, nothing reachable from `head` or `tail` is freed, and after a quiescent `freeDequeue` the freed nodes are exactly the allocated ones |
| QueueTheorems.TraversalIsSnapshot | include/tui/lock_free_queue.c:86-104 | a traversal that runs beside pushes and pops returns a contiguous, in-order segment of the push order that starts right behind what had been taken out when it loaded `head`; its length is what was queued then plus what was pushed until its last look at a `next` pointer, cut at the capacity |
| QueueTheorems.TraversalOverruns | include/tui/lock_free_queue.c:89-108 | a traversal collects the whole capacity, and so writes its terminator behind the array, if and only if what was queued when it loaded `head` and what was pushed until its last look together reach the capacity, whatever was popped meanwhile |
| QueueTheorems.FullTraversalOverruns | include/tui/lock_free_queue.c:89-108 | a traversal overruns if the queue is full when it loads `head`, and does not if the queue is shorter then and no push takes effect before its last look |
| QueueOverrun.ShortQueueOverruns | include/tui/lock_free_queue.c:86-108 | a run of two threads in which it does although the queue, of capacity two, never holds more than one entry |
| QueueTheorems.RetryPaid | include/tui/lock_free_queue.c:33-77 | a loop iteration is repeated, for another reason than a spurious failure, only if some thread linked a node or moved `tail` or `head` since the iteration began |
| QueueTheorems.RetriesPaidByPushes | include/tui/lock_free_queue.c:33-77 | the retries of each thread, spurious ones aside, are at most one plus three times the number of entries pushed by all threads together |
| QueueProgress.LockFree | include/tui/lock_free_queue.c:25-113 | under every schedule all threads together take no more steps than a budget computed from the number of calls that have returned, the number of threads and the capacity, plus one loop iteration for each spurious failure: while steps are taken, calls return |
| QueueProgress.ActPays | include/tui/lock_free_queue.c:25-113 | each step is paid for by a call that returns, a counted retry, a spurious failure, or leads on in its call |
| QueueProgress.ActLinks | include/tui/lock_free_queue.c:39-47 | every linked entry is accounted for by the thread that linked it until its call has returned |
| QueueSolo.LoneThreadFinishes | include/tui/lock_free_queue.c:33-77 | from any reachable state a thread that runs alone without spurious failures finishes its push (eviction included) or pop within 25 steps, a traversal within its capacity more |
| QueueSteps.ActOk | include/tui/lock_free_queue.c:25-104 | each atomic step of a thread keeps the chain, the history and the record of returned calls, stays within what the other threads rely on, and keeps what the thread itself knows |
| QueueSteps.LinkOk | include/tui/lock_free_queue.c:39-39 | a successful link extends the chain at its end and appends a push to the history, whichever of the last two nodes `tail` points at |
| QueueSteps.SwingOk | include/tui/lock_free_queue.c:40-50 | swinging `tail` to the successor of the node it was seen at is harmless and, if it takes effect, is progress |
| QueueSteps.TakeOk | include/tui/lock_free_queue.c:69-70 | a successful head move takes out the oldest entry, whose message the thread read before |
| QueueSteps.PopNextStep | include/tui/lock_free_queue.c:60-65 | a NULL successor of the loaded head means the queue is empty at that very load |
| QueueInvariant.ThreadStable | include/tui/lock_free_queue.c:25-104 | what one thread knows at its program counter survives every step of every other thread |
| QueueAccounts.CountsKept | include/tui/lock_free_queue.c:41-47 | every step keeps the balance of the size counter and the bound on the length, an evictor that finds the queue empty being discharged |
| QueueAccounts.FreesKept | include/tui/lock_free_queue.c:70-73 | every step keeps the balance of nodes: in the chain, held by the one thread that will link or free it, or freed once |
| QueueAccounts.ClaimsKept | include/tui/lock_free_queue.c:25-78 | every step keeps each thread's share of the history equal to what its calls reported plus what its running call has done |
| QueueTheorems.ReachableInv | include/tui/lock_free_queue.c:9-104 | all of the above holds from initialisation on, after every schedule |
| EventQueue.Dequeue.constructor | include/tui/lock_free_queue.c:9-19 | an initialised queue is empty and owns one dummy node |
| EventQueue.Dequeue.IsEmpty | include/tui/lock_free_queue.c:21-21 | true exactly when nothing is queued |
| EventQueue.Dequeue.IsFull | include/tui/lock_free_queue.c:23-23 | true exactly when at least the capacity is queued |
| EventQueue.Dequeue.PushRear | include/tui/lock_free_queue.c:25-54 | appends the message at a new node and, when the queue had reached its capacity, drops the oldest and frees exactly the old dummy; without memory it reports failure and changes nothing |
| EventQueue.Dequeue.PopFront | include/tui/lock_free_queue.c:56-78 | removes and returns the oldest message and frees exactly the old dummy, or reports an empty queue and changes nothing, even with a lagging tail |
| EventQueue.Dequeue.DisplayEntries | include/tui/lock_free_queue.c:80-113 | copies operation, user, group, command cut to 15 and path cut to 127 characters of the oldest entries in order, as many as fit, and the new name of renames; NULL exactly when there are none or no memory; the terminator falls outside the array exactly when there is memory and at least the capacity, not zero, is queued |
| EventQueue.Dequeue.FreeDequeue | include/tui/lock_free_queue.c:115-125 | frees every node that is left, so over a whole life the freed nodes are exactly the created ones, each once |
| EventQueue.Dequeue.UpdateTable | include/tui/tui.c:323-338 | the rows shown are the longest prefix of the entries without an empty file name or a stop code |
| EventQueue.Window | include/tui/lock_free_queue.c:41-47 | pushing any messages onto an empty queue leaves exactly the newest ones, up to the capacity, in order |
| EventQueue.WindowLength | include/tui/lock_free_queue.c:41-47 | a sole producer leaves as many entries as it pushed, up to the capacity |
| EventQueue.FullQueueOverruns | include/tui/lock_free_queue.c:105-108 | a queue that was just filled shows the write behind the array: after n pushes onto a new queue a call of `displayEntries` makes it exactly if n is at least the capacity |
| EventQueue.TableRowsUnique | include/tui/tui.c:334-338 | the longest such prefix is the only one that stops where it does |
| DispatchTheorems.AcknowledgementDeficit | include/message_queue/message.c:150-187 | for each consumer, sends minus acknowledgements read is what is in its pipe, in its hand, on the way back or lost, and equals the rounds on it that wrote and got no acknowledgement, minus those that got one without having written, plus one while a round waits; acknowledgements are read in the order of the sends, and the i-th answers the i-th unless one was lost |
| DispatchDeficit.DeficitChange | include/message_queue/message.c:150-187 | from any moment between rounds to any later one the deficit of a consumer changes by the rounds that wrote and missed their acknowledgement, less those that read one without having written |
| DispatchDeficit.RoundDeficit | include/message_queue/message.c:150-187 | a round on a consumer, whatever the others do during it, shrinks its deficit if and only if its write failed and it read an acknowledgement, and lets it grow if and only if its write succeeded and it read none |
| DispatchDeficit.DeficitBound | include/message_queue/message.c:150-187 | between rounds the deficit shrinks by no more than the writes to that consumer that failed in between; while its writes succeed it never shrinks, so a missed acknowledgement is not made up for |
| DispatchDeficit.DeficitCanShrink | include/message_queue/message.c:150-187 | a run of one consumer in which it falls from one to zero: a wait runs out, the answer comes late, the consumer fails to read and closes its end, and the round of the write that then fails reads that answer |
| DispatchTheorems.OneInFlight | include/message_queue/message.c:150-183 | if no wait was missed, the only message under way in the whole system is the one being waited for |
| DispatchTheorems.RoutedIsDataPrefix | include/message_queue/message.c:141-148 | the dispatcher takes messages in queue order and routes exactly those before the first stop; the queue never holds more than ten |
| DispatchTheorems.RoundRobin | include/message_queue/message.c:148-187 | the n-th message of a group goes to its consumer n mod K: collected in turn, the streams addressed to the group's consumers are the group's messages, and no stream is ahead by more than one, whatever timed out or failed |
| DispatchTheorems.HandlesInOrder | include/message_queue/consumer.c:13-30 | a consumer handles what was sent to it in order and without gaps; the rest is in its pipe |
| DispatchTheorems.Drained | include/message_queue/consumer.c:13-37 | a consumer that left its loop, its reads and the writes to it having succeeded, handled every message addressed to it in order, then one stop, then nothing |
| DispatchAnswers.EveryAnswer | include/message_queue/consumer.c:18-30 | in every run each message a consumer has dealt with was answered by an acknowledgement that was read or is on its way, but for those whose write was made to fail or found the dispatcher's end closed |
| DispatchAnswers.AllAnswered | include/message_queue/consumer.c:18-30 | where no call of a consumer fails, and while the dispatcher listens, no acknowledgement is lost and the i-th answers the i-th message |
| DispatchAnswers.StopAnswered | include/message_queue/consumer.c:15-30 | such a consumer that has left its loop has sent one acknowledgement for each message addressed to it and one for its stop |
| DispatchTheorems.NoDeadlock | include/message_queue/message.c:114-239 | in every reachable state but one where the dispatcher waits for a message to be queued, until all processes have finished, some process can go on without any call failing, unless the dispatcher and a consumer wait for each other; and they do not where fewer waits have failed on each consumer than a pipe holds messages |
| DispatchPipes.PipesBound | include/message_queue/message.c:150-183 | in every reachable state no pipe is overfull, and a consumer with its two pipes holds at most one message more than one pipe can, plus one for each wait on it that failed and one for the round going on |
| DispatchPipes.JamNeedsSkips | include/message_queue/message.c:150-183 | where the dispatcher and a consumer wait for each other, at least as many waits on that consumer have failed as a pipe holds messages |
| DispatchPipes.JamPossible | include/message_queue/message.c:150-183 | with pipes for one message, one failed wait and two that ran out it happens |
| DispatchTheorems.JamStays | include/message_queue/message.c:150-155 | once they wait for each other only a failing call ends it |
| DispatchTheorems.StoppingDecreases | include/message_queue/message.c:195-238 | from then on every step of the dispatcher or a consumer decreases a measure that is never negative |
| DispatchTheorems.Termination | include/message_queue/message.c:195-238 | after the dispatcher left its loop every run, with failing calls or without, is bounded by that measure; it can go on without a failing call until all processes have finished or the dispatcher and a consumer wait for each other, and where too few waits have failed for that exactly until all have finished |
| DispatchTheorems.CalmRunDrains | include/message_queue/consumer.c:13-41 | if from some moment after that no call fails, then when nothing can go on every consumer that no failed read or write hit before has handled all messages addressed to it, in order, then one stop, and has gone with an empty pipe and all ends towards it closed; unless the dispatcher and a consumer wait for each other, which takes, before that moment, as many failed waits as a pipe holds messages |
| DispatchTheorems.OnlyFirstGroup | include/message_queue/message.c:148-152 | if every data message ever queued has category 0, no consumer of another group than the first is ever addressed |
| DispatchInvariant.ConsumeKeeps | include/message_queue/consumer.c:13-41 | each step of a consumer keeps its pipe in order, its acknowledgements in order, and the reason why it left its loop |
| DispatchInvariant.WriteKeeps | include/message_queue/message.c:148-155 | routing a message serves the consumer whose turn it is and nobody else, whether or not the write succeeds |
| DispatchInvariant.ConcludeKeeps | include/message_queue/message.c:157-187 | the end of a round, acknowledged or not, passes the turn to the next consumer of the group and settles the account of this one |
| DispatchInvariant.StopWriteKeeps | include/message_queue/message.c:200-206 | a stop is tried once for every consumer and follows all its data |
| DispatchInvariant.CloseKeeps | include/message_queue/message.c:232-238 | ends are closed only after the stop was tried |
| DispatchInvariant.RunInv | include/message_queue/message.c:141-238 | the routing, the accounts and the pipes stay consistent in every run |
| Dealing.CollectDealt | include/message_queue/message.c:185-187 | messages dealt round robin are recovered, in order, by collecting from the streams in turn |
| Dealing.DealLoad | include/message_queue/message.c:185-187 | of n messages each of K streams gets n div K, and the first n mod K one more |
| Dealing.DealAt | include/message_queue/message.c:185-187 | the n-th message is in stream n mod K at place n div K |
| Processes.Dispatcher | include/message_queue/message.c:114-239 | however its calls come out and whatever the other processes do in between, the dispatcher's loops make a run of the step system that ends with a stop tried on every consumer and both its ends towards every consumer closed |
| Processes.Deliver | include/message_queue/message.c:128-193 | the receive loop ends by a stop or an error, with the program's own turn counters equal to those of the step system |
| Processes.DeliverOne | include/message_queue/message.c:148-187 | the message is addressed to the consumer whose turn it is and to no other, the turn of its group and of no other moves on by one, in the program's counters as in the step system, and the loop is back at its receive |
| Processes.StopAll | include/message_queue/message.c:195-230 | after the nested loops a stop was tried on every consumer |
| Processes.CloseAll | include/message_queue/message.c:232-238 | after the nested loops both ends towards every consumer are closed |
| Processes.RunConsumer | include/message_queue/consumer.c:6-42 | a consumer's loop is a run of the step system that ends with both its ends closed; it has counted exactly the data messages it handled, no stop among them, and has answered every message it handled, the stop included, but for the failed writes it reported |
| Processes.OthersLeaveDispatcher | include/message_queue/message.c:114-239 | no other process changes where the dispatcher is or whose turn it is |
| Processes.OthersLeaveConsumer | include/message_queue/consumer.c:6-42 | no other process changes where a consumer is or what it has handled |
| Descriptors.InitPipes | include/message_queue/message.c:38-51 | it succeeds exactly if no pipe() call fails, and then all four ends of every consumer's two pipes are open |
| Descriptors.ConsumerCloses | include/message_queue/message.c:63-78 | a forked consumer keeps only its own read end and acknowledgement end |
| Descriptors.InitConsumers | include/message_queue/message.c:53-91 | it succeeds exactly if no fork() fails, and then there is one process for each consumer, each with exactly its two ends, and the parent keeps only the opposite ones; after a failed fork the consumers already started still hold exactly theirs |
| Descriptors.ParentCloses | src/file_monitor.c:147-155 | the parent keeps no pipe end, and everything else |
| Descriptors.StartUp | src/file_monitor.c:132-155 | it succeeds exactly if no pipe() or fork() fails, and then each consumer holds exactly its own two ends, the dispatcher exactly the opposite ones, and the parent none |
| Descriptors.OneOwner | include/message_queue/message.c:53-112 | then every pipe end has exactly one owner |
| OperationTable.ComputeHash | include/tui/hashmap.c:20-31 | the loop computes the 64-bit wrapping base-37 hash over signed characters, modulo the table size |
| OperationTable.TableRefines | include/tui/hashmap.c:38-113 | after any sequence of init, insert and cleanup a key is found exactly when the table is live and the key was the first to claim its slot since the last init, and the value found is the one given to it last |
| OperationTable.PutAllFaithful | include/tui/hashmap.c:70-94 | first claimant wins: after any inserts, what a slot holds is decided by the first key that hashed to it and the last value of that key |
| OperationTable.NamesApart | include/tui/hashmap.c:44-54 | the hashes of the eleven names are pairwise distinct, so no insert of `init_operation_map` is dropped |
| OperationTable.ExactRecognition | include/tui/hashmap.c:38-56 | after init exactly the eleven names are found, each with its own code 0 to 10 |
| OperationTable.NamesAndCodes | include/tui/hashmap.c:44-54 | each of the eleven names, spelled out, has its number from the header, 0 for "open" to 10 for "rename", and a key is found exactly if it is one of them |
| OperationTable.InitThenGet | include/tui/hashmap.c:38-113 | the same of the table in memory, from program start through `init_operation_map` to `get` |
| OperationTable.HighByte | include/tui/hashmap.c:25-27 | bytes from 128 on enter the hash as negative numbers |
| OperationTable.SymlinkUnknown | include/tui/hashmap.c:50-50 | "symlink" is not found, "syslink" is |
| OperationTable.OperationMap.constructor | include/tui/hashmap.c:14-18 | before the first init the table is not live and holds nothing |
| OperationTable.OperationMap.Insert | include/tui/hashmap.c:70-94 | the table in memory changes as the specification says; an item is allocated only in a live table and for a free slot, no item is freed, and freed items stay as they are |
| OperationTable.OperationMap.Get | include/tui/hashmap.c:96-113 | finds a key exactly when the specification does and never follows a stale pointer |
| OperationTable.OperationMap.Init | include/tui/hashmap.c:38-56 | a live table is left alone, another becomes live with exactly the eleven inserts, its stale pointers dropped unread |
| OperationTable.OperationMap.Cleanup | include/tui/hashmap.c:58-68 | every item that was ever created has then been freed, each once, also over repeated cleanups |
| FileMonitor.Monitor.OnFileOpen | src/file_monitor.bpf.c:67-90 | makes one report that says "open", the path if there is one, and who and when; caches the path if there is room; whatever the scratch record held |
| FileMonitor.Monitor.OnFilePermission | src/file_monitor.bpf.c:92-121 | reports a read, a write, both or neither, with the cached path or none, whatever the scratch record held |
| FileMonitor.Monitor.OnInodeNamed | src/file_monitor.bpf.c:123-259 | each of the seven directory hooks makes one report with its own operation name and leaves the cache alone |
| FileMonitor.Monitor.OnInodeRename | src/file_monitor.bpf.c:261-282 | a rename from or to the watched directory makes one report with both names, and who and when; whatever the scratch record held |
| FileMonitor.Monitor.RunTrace | src/file_monitor.bpf.c:67-282 | over a whole trace of hooks the cache and all reports are those of the specification, in order |
| FileMonitor.UnwatchedSilent | src/file_monitor.bpf.c:53-55 | outside the watched directory, and without a scratch record, a hook reports nothing and leaves the cache alone |
| FileMonitor.OpenReport | src/file_monitor.bpf.c:80-87 | an open makes exactly one report, with the operation "open", the hook's path or none, the process, user and group from the context, and the time |
| FileMonitor.AccessReport | src/file_monitor.bpf.c:105-118 | masks 1, 2 and 3 give a "read", a "write", and both in this order at two times; each with the cached path and the context |
| FileMonitor.NamedReport | src/file_monitor.bpf.c:123-259 | each of the seven directory hooks reports its operation by its literal name, with the name in the directory and the context |
| FileMonitor.RenameReport | src/file_monitor.bpf.c:274-280 | a rename reports "rename" with the old and the new name and the context |
| FileMonitor.OpenThenAccess | src/file_monitor.bpf.c:80-109 | after a watched open with a path, of an inode that is in the cache then, the next reads and writes report that path |
| FileMonitor.CacheTrace | src/file_monitor.bpf.c:37-84 | after any trace of hooks the cache holds exactly the first inodes ever opened, up to its capacity, each with the path of its latest open |
| FileMonitor.AccessReports | src/file_monitor.bpf.c:105-118 | reads and writes carry the path of the latest open if the inode was admitted to the cache and an empty path otherwise |
| FileMonitor.NeverRemoved | src/file_monitor.bpf.c:83-83 | an inode that is in the cache stays there through any later hooks |
| FileMonitor.ReportShape | src/file_monitor.bpf.c:261-282 | a rename carries the old and the new name, every other report no second name, and every report names one of the eleven kernel-side operations |
| Counters.OperationCounters.ReadCounter | include/tui/tui.c:31-60 | reads the counter of a code, zero for codes without one |
| Counters.OperationCounters.IncrementCounter | include/tui/tui.c:63-106 | adds one, wrapping at 64 bits, to the counter of a code and to no other, and to none for unknown codes |
| Counters.OperationCounters.DrawBarGraph | include/tui/tui.c:197-220 | every bar is scaled by the largest of the five values, or by one |
| Counters.CountersTally | include/tui/tui.c:63-106 | after any events each counter is the number of events with its code, modulo 2^64 |
| Counters.BarsCountEvents | include/tui/tui.c:202-208 | the five bars together count every recognised event exactly once |
| Counters.BarsByCode | include/tui/tui.c:202-208 | the bars are the numbers of opens and reads; of writes, creations and new directories; of removed files and directories; of renames; of links of both kinds and special files |
| Counters.BarFits | include/tui/tui.c:220-220 | every bar's length is between zero and the width less the margin, even if the product wrapped |
| Counters.BarProportional | include/tui/tui.c:220-220 | without wrapping a bar is its value's share of the width, rounded down |
| Counters.NarrowWindow | include/tui/tui.c:220-220 | in a window narrower than the margin a full bar comes out negative |
| Counters.BarMonotone | include/tui/tui.c:220-220 | without wrapping, a larger value never has a shorter bar |
| Counters.LargestFills | include/tui/tui.c:220-220 | the largest value fills the width if and only if its product does not wrap |
| Counters.OnlyLargestFills | include/tui/tui.c:220-220 | without wrapping, no smaller value does |
| Intake.Handler.constructor | src/file_monitor.c:124-125 | start-up gives an empty queue, zero counters and a table of the eleven names |
| Intake.Handler.MakeMessage | include/userspace/ebpf.c:46-64 | the method fills the record as the specification says, whose fields `Intake.HookTold` pins |
| Intake.Handler.HandleEvent | include/userspace/ebpf.c:16-70 | one event is counted once, queued once if there is memory, and sent at most once, always as the same message; the table is unchanged |
| Intake.Handler.HandleReport | include/userspace/ebpf.c:46-69 | for each report of each hook, the newest queue entry and the message sent last carry the user, group and command of the hook's context, the operation's number, the path or name cut to 127 characters, and for a rename the new name |
| Intake.HookTold | include/userspace/ebpf.c:46-64 | the same of the message built, hook by hook with literal numbers: 0 open, 1 read, 2 write, 3 create, 4 link, 5 unlink, 7 mkdir, 8 rmdir, 9 mknod, 10 rename, and 255 for symlink |
| Intake.Handler.HandleAll | include/userspace/ebpf.c:65-69 | after any number of events the queue is exactly the newest messages up to its capacity, and every counter is the number of events with its code, modulo 2^64 |
| Intake.Handler.HandleAndShow | include/tui/tui.c:323-338 | after any number of events the rows of the table are the longest prefix of the newest messages, up to the capacity, without an empty file name |
| Intake.CodesStayApart | include/userspace/ebpf.c:51-62 | no event's message is ever taken for an acknowledgement or a stop, all go to the first group, and one ends the table view only if its path is empty |
| Intake.EventsReachFirstGroup | include/message_queue/message.c:145-152 | if everything queued besides stops was built by the event handler, the consumers of all groups but the first never get a message, and every routed code is an operation or "unknown" |
| Intake.ReportsRecognised | src/file_monitor.bpf.c:123-282 | of all reports of the kernel side exactly those of the symlink hook are unknown, the others get the code of the operation they name |
| Messages.Fit | include/userspace/ebpf.c:63-64 | a copied text is the longest prefix that leaves room for its terminator |

## Left out

- Address reuse, ABA and access to freed memory in the concurrent queue: excluded by the assumption above, so memory safety of `popFront`'s immediate `free` is not claimed.
- Weak memory: the relaxed counters of include/tui/tui.c are modelled as wrapping additions without reordering; the queue's atomics are sequentially consistent in the code.
- EventQueue.Dequeue.PushRear: one thread at a time, and only the compare-and-swap at include/tui/lock_free_queue.c:40 may fail spuriously; all failures and interleavings are in the concurrent model.
- EventQueue.Dequeue.DisplayEntries: the write behind the array at include/tui/lock_free_queue.c:108 is reported by `overrun`, not carried out; entries behind the terminator are not modelled.
- EventQueue.Dequeue.UpdateTable: stops at the end of the array when the terminator fell outside, as the loop bound at include/tui/tui.c:334 does; users' and groups' names are not looked up.
- The 32-bit width of `dq.size`: it stays within the capacity plus or minus the number of threads.
- `freeDequeue` beside running threads: the code calls it at the end, and so it is modelled with all threads idle.
- Processes.Dispatcher: a script that has run out makes the remaining calls fail; waiting calls consume turns of the script, so waiting for ever is not represented.
- Processes.RunConsumer: a read that would wait for ever fails when the script has run out.
- DispatchTheorems.Drained: for a failed write or read nothing is promised about the messages behind it, since the code neither retries nor reports them; the conditions are the results of those calls.
- The capacity of pipes is counted in messages, the same for both pipes of a consumer, and any positive number; the bytes of a real pipe are not modelled.
- SIGPIPE, real time, `usleep`, error texts and logging; a time-out is a choice of the environment, and an acknowledgement written to a closed pipe is the handled -1 return.
- Acknowledgements are numbered instead of carrying the `ACK_MESSAGE` code; the dispatcher only prints on it.
- The unset fields of the stop message, and of messages built by the event handler: the former are fixed, the latter arbitrary inputs.
- `send_with_retry` and `producer`: a send enqueues a message once or not at all.
- Failing `malloc` and `strdup` inside `insert`, and keys of 2^32 characters or more.
- `__builtin_memcpy(data->operation, "open", 16)` copies bytes behind the literal; the operation is modelled up to its NUL.
- Concurrent hooks on several processors: each hook runs to its end; the scratch record is per processor.
- Consumers count in their own copies of the counters, which nothing displays; the counts are stated per consumer, not added up.
- Drawing, key handling, BPF loading and perf-buffer polling.
