# Verified models of the repository's protocols

The repository is a collection of small systems programs. This project models the ones that
contain a protocol or a data structure, and proves what they keep over every input, every run and
every interleaving. The modules follow the programs.

| files | program |
|---|---|
| `HlistMemory`, `RcuHashMap`, `RcuInvariants`, `RcuSteps`, `RcuPublish`, `RcuTheorems`, `RcuUpdates`, `RcuFlush` | the RCU hash map of a kernel module |
| `ForkJoinPool`, `ForkJoinInvariants`, `ForkJoinSteps`, `ForkJoinTheorems` | the fork/join thread pool |
| `ForkJoinSort`, `ForkJoinSortOnPool`, `ForkJoinSortTheorems` | its sort, under every schedule, and on the pool |
| `RingBuffer`, `EchoRuns`, `EchoConnection` | the byte ring and the level-triggered echo servers over it |
| `CoroutineEcho` | the edge-triggered echo server with a coroutine per connection |
| `BoundedQueue`, `ProducersConsumers`, `ProducersConsumersTheorems`, `ProducersConsumersLeftOver` | the bounded queue on three semaphores and its processes |
| `Checksum` | the internet checksum by wide-word folding |
| `ResponseRuns`, `ResponseServer` | the server that answers requests with a large response |
| `Pipeline` | the concurrent pipeline |
| `ActorRing` | the token ring of actors |
| `Numbers` | arithmetic and byte sequences used by several of these |

## How the programs are modelled

Concurrent programs (the hash map, the pool, the coroutine connection, the processes around the
bounded queue, the pipeline, the actors) are transition systems: one step is one thing a thread can
do between two points at which others may run, and a run is any sequence of steps of any number of
threads. Main results hold in every state of every run. Sequential code that updates objects in
place (the ring buffer, both connections on it, the queue's critical sections, the checksum, the
flush of the hash map) is imperative: classes and arrays, each method proved against its
specification. For the two connections that specification is a function of events
(`EchoRuns.AfterRun`, `ResponseRuns.AfterRun`): each method's new state, histories included, equals
what the function says of what the kernel did, and what holds of runs is proved of the function.

What lies outside the programs is nondeterministic and only limited by its documented meaning:

- hlist and RCU primitives: a deleted or replaced node keeps its `next`; a callback runs only after
  every reader that was active at `call_rcu` has left; memory is sequentially consistent; an
  allocator may hand out any address that is not in use, including one that was freed.
- mutexes, condition variables (with spurious wake-ups), semaphores and strands as their
  interfaces promise; `std::sort` and `std::inplace_merge` by their contracts.
- sockets: any short read or write, EAGAIN, end of stream and error; an edge is reported when bytes
  arrive, when the peer closes, and when room appears after a send was refused.

Fields called auxiliary in a state (histories, owners, counters of started tasks) are read by no
step to decide what to do.

## Where the code does not keep what one would expect

Each of these is proved, with the exact condition under which the code does keep it.

- `pe_map_flush` empties each bucket's head and later unlinks the detached entries with
  `hlist_del_rcu`. The first entry's back pointer still aims at the bucket's head, so while a bucket
  is drained its head shows entries that are about to be freed, exactly when the bucket had at
  least two (`RcuFlush.DrainExposesEntries`; `RcuFlush.TwoInBucket` is a run that gets there). Flush
  therefore needs the map to itself, and with the map to itself it leaves every bucket empty and
  nothing allocated.
- `ip_fast_csum` accumulates in 64 bits and drops a carry when that sum wraps. Its result is the
  checksum if and only if the sum does not wrap (`Checksum.FastFormIsChecksum`);
  `Checksum.WrappingHeader` is a 20-byte header on which it wraps.
- A coroutine that exits inside `start()` is not deleted: `start()` does not look at `exited`, and no
  later report of input or output deletes the connection. In any run, an exited connection is
  still there if and only if the step that ended its coroutine was taken inside `start()` and no
  error has been reported since (`CoroutineEcho.OutlivesExit`). `CoroutineEcho.ClosedBeforeStart` is
  a run that reaches this: the peer has closed before the connection starts.
- A hard error of `send` does not end `await_send`: the loop has no `break` there and sends the same
  bytes again. In any run, once a send of a buffer has failed the coroutine exits exactly when all of
  that buffer has been sent (`CoroutineEcho.FailedBufferEnds`); `CoroutineEcho.FailingSendSpins` has,
  for every n, a run with n failing sends in a row.
- Not every mix of producers and consumers lets all processes exit. Every run ends with all of them
  exited if and only if there are at least as many producers as consumers and, for every choice of as
  many producers as there are more, the nodes these put fit into the queue
  (`ProducersConsumersLeftOver.FinishesIffLeftOversFit`). With fewer producers some consumer never
  exits (`ProducersConsumersTheorems.TooFewStops`); `ProducersConsumersTheorems.ExtraProducerBlocks` is
  a run in which a producer stays blocked.

## Model

| member | source | states |
|---|---|---|
| `RcuHashMap.BucketIndex` | kernel_module/file/proc_entry_hashmap2/kmod/proc_entry_hashmap2.c:126-143 | every key, negative ones included, selects one of the 2^16 buckets |
| `RcuHashMap.BucketFoldsWords` | kernel_module/file/proc_entry_hashmap2/kmod/proc_entry_hashmap2.c:126-142 | the bucket is the exclusive or of the key's four 16-bit words |
| `RcuTheorems.CreatedMap` | kernel_module/file/proc_entry_hashmap2/kmod/proc_entry_hashmap2.c:64-102 | the created map is an initial state of the model, so every theorem about runs applies to it |
| `HlistMemory.AddHeadList` | kernel_module/file/proc_entry_hashmap2/kmod/proc_entry_hashmap2.c:172-176 | adding at the head yields the well-linked list with the entry in front and touches only that bucket |
| `HlistMemory.ReplacedList` | kernel_module/file/proc_entry_hashmap2/kmod/proc_entry_hashmap2.c:165 | replacing yields the well-linked list with the new entry in the old one's place |
| `HlistMemory.DeletedList` | kernel_module/file/proc_entry_hashmap2/kmod/proc_entry_hashmap2.c:207 | deleting yields the well-linked list without the entry |
| `RcuSteps.BeginInsertKept` | kernel_module/file/proc_entry_hashmap2/kmod/proc_entry_hashmap2.c:138-154 | allocating an entry, at any unused address, keeps the invariant, whatever readers and writers are under way; that the entry carries the caller's key and value is `RcuUpdates.InsertTakesEffect` |
| `RcuSteps.LockKept` | kernel_module/file/proc_entry_hashmap2/kmod/proc_entry_hashmap2.c:157 | taking a bucket's lock keeps the invariant: lock holders and locked buckets match |
| `RcuSteps.AdvanceKept` | kernel_module/file/proc_entry_hashmap2/kmod/proc_entry_hashmap2.c:159-170 | a writer's traversal stays at its place in the list, with the key not before it |
| `RcuPublish.PublishKept` | kernel_module/file/proc_entry_hashmap2/kmod/proc_entry_hashmap2.c:165-176 | the reader-visible store of an update keeps lists, counts, ownership, and what every reader under way relies on |
| `RcuPublish.PublishIsUpdate` | kernel_module/file/proc_entry_hashmap2/kmod/proc_entry_hashmap2.c:159-216 | a publish is exactly the map update: the writer's key gets the value of its entry or none, every other key keeps its own, and an entry is unlinked iff the key was present (which is when remove returns 0) |
| `RcuSteps.UnlockKept` | kernel_module/file/proc_entry_hashmap2/kmod/proc_entry_hashmap2.c:178 | unlocking keeps the invariant; an update that unlinked nothing is over |
| `RcuSteps.CallRcuKept` | kernel_module/file/proc_entry_hashmap2/kmod/proc_entry_hashmap2.c:180-183 | handing an entry to call_rcu leaves it protected for every reader then active |
| `RcuSteps.EnterKept` | kernel_module/file/proc_entry_hashmap2/kmod/proc_entry_hashmap2.c:237 | a reader that enters can rely on everything its bucket holds |
| `RcuSteps.ReadHeadKept` | kernel_module/file/proc_entry_hashmap2/kmod/proc_entry_hashmap2.c:239 | from the head, the traversal ends within the list's length and meets a key that is present |
| `RcuSteps.ReadNextKept` | kernel_module/file/proc_entry_hashmap2/kmod/proc_entry_hashmap2.c:239-247 | so it does from each next entry, linked or not |
| `RcuSteps.ReturnKept` | kernel_module/file/proc_entry_hashmap2/kmod/proc_entry_hashmap2.c:241-252 | the answer is one the key had since the reader entered |
| `RcuSteps.ExitKept` | kernel_module/file/proc_entry_hashmap2/kmod/proc_entry_hashmap2.c:249 | a reader's exit keeps what all other readers rely on |
| `RcuSteps.ReclaimKept` | kernel_module/file/proc_entry_hashmap2/kmod/proc_entry_hashmap2.c:118-123 | freeing an entry whose callback is due keeps the invariant |
| `RcuTheorems.RunKept` | kernel_module/file/proc_entry_hashmap2/kmod/proc_entry_hashmap2.c:138-253 | the invariant holds in every state of every run |
| `RcuTheorems.OnlyPublishUpdates` | kernel_module/file/proc_entry_hashmap2/kmod/proc_entry_hashmap2.c:138-253 | no other step changes the abstract map |
| `RcuTheorems.GetIsLinearizable` | kernel_module/file/proc_entry_hashmap2/kmod/proc_entry_hashmap2.c:227-253 | a lock-free get returns what the abstract map held for the key at some instant inside its read section, hit or miss |
| `RcuTheorems.VisitedWasLinked` | kernel_module/file/proc_entry_hashmap2/kmod/proc_entry_hashmap2.c:239-247 | every entry a reader visits was linked in its bucket at some instant since it entered |
| `RcuTheorems.PresentKeyStaysReachable` | kernel_module/file/proc_entry_hashmap2/kmod/proc_entry_hashmap2.c:239-247 | a key present since the reader entered is ahead of its cursor, even through unlinked entries |
| `RcuTheorems.GetIsBounded` | kernel_module/file/proc_entry_hashmap2/kmod/proc_entry_hashmap2.c:239-247 | however many updates run beside it, a get follows at most as many pointers as the bucket held entries when it read the head |
| `RcuTheorems.TraversalsAreSafe` | kernel_module/file/proc_entry_hashmap2/kmod/proc_entry_hashmap2.c:138-253 | no traversal stands on freed memory, and every traversal can go on or has arrived |
| `RcuTheorems.ReclaimIsSafe` | kernel_module/file/proc_entry_hashmap2/kmod/proc_entry_hashmap2.c:118-123 | an entry is freed once, when no list, reader or writer has it |
| `RcuTheorems.EntriesConserved` | kernel_module/file/proc_entry_hashmap2/kmod/proc_entry_hashmap2.c:149-220 | allocated = linked (the sum of `num`) + waiting for readers + in a writer's hands + freed |
| `RcuUpdates.InsertTakesEffect` | kernel_module/file/proc_entry_hashmap2/kmod/proc_entry_hashmap2.c:138-186 | an insert of (key, value), from its beginning on and however many others are under way, takes effect in its publish: the map then holds that value for that key and for every other key what it held |
| `RcuUpdates.RemoveTakesEffect` | kernel_module/file/proc_entry_hashmap2/kmod/proc_entry_hashmap2.c:188-225 | a remove of key takes effect in its publish: the map then holds nothing for it and for every other key what it held; it has unlinked an entry iff the map held something |
| `RcuUpdates.GetAnswers` | kernel_module/file/proc_entry_hashmap2/kmod/proc_entry_hashmap2.c:227-253 | a get of key answers what the map held for that key at some instant since it entered |
| `RcuUpdates.GetAfterInsert` | kernel_module/file/proc_entry_hashmap2/kmod/proc_entry_hashmap2.c:138-253 | a get that begins after an insert of the same key has taken effect, with no update of that key since, answers the value inserted |
| `RcuUpdates.GracePeriodEnds` | kernel_module/file/proc_entry_hashmap2/kmod/proc_entry_hashmap2.c:118-123 | an entry handed to call_rcu waits only for readers still inside, and can be freed once they have left |
| `RcuFlush.DrainKeepsRest` | kernel_module/file/proc_entry_hashmap2/kmod/proc_entry_hashmap2.c:279-291 | while a detached bucket is drained the entries not yet freed stay a list, and the bucket's head shows its first |
| `RcuFlush.DrainExposesEntries` | kernel_module/file/proc_entry_hashmap2/kmod/proc_entry_hashmap2.c:268-291 | a bucket shows entries about to be freed iff it had at least two |
| `RcuFlush.TwoInBucket` | kernel_module/file/proc_entry_hashmap2/kmod/proc_entry_hashmap2.c:126-178 | a run of two inserts whose keys share a bucket of the created map, after which a flush exposes an entry |
| `RcuFlush.PeHashmap.constructor` | kernel_module/file/proc_entry_hashmap2/kmod/proc_entry_hashmap2.c:106-108 | any reachable state without readers and writers is a quiet map that flush can be called on |
| `RcuFlush.PeHashmap.Detach` | kernel_module/file/proc_entry_hashmap2/kmod/proc_entry_hashmap2.c:261-277 | after the first loop and the barriers only the detached lists are allocated, and each is intact |
| `RcuFlush.PeHashmap.FreeDetached` | kernel_module/file/proc_entry_hashmap2/kmod/proc_entry_hashmap2.c:285-290 | the inner loop frees exactly the detached list, counting it |
| `RcuFlush.PeHashmap.Flush` | kernel_module/file/proc_entry_hashmap2/kmod/proc_entry_hashmap2.c:255-296 | the map is quiet again, every bucket is empty, nothing is outstanding for `kmem_cache_destroy`, and the count is the sum of the buckets' `num` before |
| `ForkJoinTheorems.RunKept` | cpp/demo/asio/cpp11/executors/fork_join.cpp:33-153 | the pool's invariant holds in every state of every run |
| `ForkJoinSteps.TakeKept` | cpp/demo/asio/cpp11/executors/fork_join.cpp:72-81 | a worker or joiner may run any queued task |
| `ForkJoinSteps.SleepKept` | cpp/demo/asio/cpp11/executors/fork_join.cpp:39-41 | a thread goes to sleep only with an empty queue, and leaves a witness awake for the tasks to come |
| `ForkJoinSteps.SubmitQueuedKept` | cpp/demo/asio/cpp11/executors/fork_join.cpp:121-136 | queueing with notify_one keeps the invariant whichever thread is woken |
| `ForkJoinSteps.SubmitInlineKept` | cpp/demo/asio/cpp11/executors/fork_join.cpp:125-130 | so does running the task at once when the queue is loaded |
| `ForkJoinSteps.FinishKept` | cpp/demo/asio/cpp11/executors/fork_join.cpp:84-117 | finishing a task keeps counts exact, and the last of a group leaves nobody asleep without reason |
| `ForkJoinSteps.StopKept` | cpp/demo/asio/cpp11/executors/fork_join.cpp:140-145 | so does stop_threads |
| `ForkJoinTheorems.CountsAreExact` | cpp/demo/asio/cpp11/executors/fork_join.cpp:103-117 | a group's work count is its queued and running tasks; the use count is the groups with work, plus one before the stop |
| `ForkJoinTheorems.JoinWaitsForGroup` | cpp/demo/asio/cpp11/executors/fork_join.cpp:192-198 | when join can return, no task of its group is queued or running |
| `ForkJoinTheorems.WorkersExitWhenDone` | cpp/demo/asio/cpp11/executors/fork_join.cpp:38-41 | a worker exits only after the stop, with nothing queued and nothing running |
| `ForkJoinTheorems.ShutdownCompletes` | cpp/demo/asio/cpp11/executors/fork_join.cpp:54-58 | after the stop and the last task nobody sleeps and every pool thread can leave |
| `ForkJoinTheorems.NoTaskIsStranded` | cpp/demo/asio/cpp11/executors/fork_join.cpp:121-136 | while a task is queued some pool thread is awake, or an awake joiner whose group has work |
| `ForkJoinTheorems.LatestIsProductive` | cpp/demo/asio/cpp11/executors/fork_join.cpp:192-198 | with nothing queued, the thread of the task that began last is never blocked |
| `ForkJoinTheorems.WaitsForLaterStart` | cpp/demo/asio/cpp11/executors/fork_join.cpp:192-198 | a sleeping joiner waits for a child; every child of its group is queued, or runs on another thread and began after the group was created, hence after the task that waits |
| `ForkJoinTheorems.NoWaitCycle` | cpp/demo/asio/cpp11/executors/fork_join.cpp:192-198 | no chain of threads, each asleep in a join of a group of which the next one runs a task, comes back to its start |
| `ForkJoinTheorems.NoDeadlock` | cpp/demo/asio/cpp11/executors/fork_join.cpp:72-100 | while work is unfinished some thread can run, take a task or leave its loop, however joins are nested |
| `ForkJoinTheorems.TasksStartInOrder` | cpp/demo/asio/cpp11/executors/fork_join.cpp:72-81 | of two tasks queued at the same time the one submitted first leaves the queue first and begins first |
| `ForkJoinTheorems.SubmitsByLoad` | cpp/demo/asio/cpp11/executors/fork_join.cpp:121-136 | a submission that finds more than 16 queued tasks per pool thread is run at once by the submitting thread, any other goes to the end of the queue |
| `ForkJoinTheorems.QueueIsBounded` | cpp/demo/asio/cpp11/executors/fork_join.cpp:121-136 | so the queue never holds more than 16 tasks per pool thread, and one |
| `ForkJoinSort.StepKept` | cpp/demo/asio/cpp11/executors/fork_join.cpp:244-262 | no call of the sort moves an element out of its range |
| `ForkJoinSort.EveryScheduleSorts` | cpp/demo/asio/cpp11/executors/fork_join.cpp:244-262 | under every schedule in which a call merges only when both halves are finished the result is the one sorted arrangement of the input; that the pool allows no other is `ForkJoinSortTheorems.RunRefines` |
| `ForkJoinSort.EveryScheduleEnds` | cpp/demo/asio/cpp11/executors/fork_join.cpp:244-262 | no schedule gets stuck, and all take the same number of steps |
| `ForkJoinSortOnPool.JoinReturns` | cpp/demo/asio/cpp11/executors/fork_join.cpp:192-198 | when the join of a call can return, neither of its two tasks is queued or running |
| `ForkJoinSortOnPool.HalvesDone` | cpp/demo/asio/cpp11/executors/fork_join.cpp:250-255 | so a call whose join has returned has both halves sorted, by code that has itself returned |
| `ForkJoinSortOnPool.MoveKept` | cpp/demo/asio/cpp11/executors/fork_join.cpp:244-262 | every step of the pool and of the calls on it keeps what ties tasks, groups, stacks and calls together |
| `ForkJoinSortTheorems.MergeRefines` | cpp/demo/asio/cpp11/executors/fork_join.cpp:250-256 | a merge finds both halves finished: the merge guard of the schedules is derived from the pool |
| `ForkJoinSortTheorems.RunRefines` | cpp/demo/asio/cpp11/executors/fork_join.cpp:244-262 | every run of the sort on the pool, with borrowed and inline tasks, is a schedule of `ForkJoinSort` |
| `ForkJoinSortTheorems.PoolSorts` | cpp/demo/asio/cpp11/executors/fork_join.cpp:244-262 | whenever the first call returns the array is the one sorted arrangement of the input |
| `ForkJoinSortTheorems.NeverStuck` | cpp/demo/asio/cpp11/executors/fork_join.cpp:244-262 | until the first call returns some thread can go on with the sort or take a task, for any number of pool threads |
| `ForkJoinSortTheorems.EveryRunEnds` | cpp/demo/asio/cpp11/executors/fork_join.cpp:244-262 | a run makes at most ten moves for each call that forks and one for each that sorts, besides sleeping, waking and leaving, so the sort returns |
| `RingBuffers.ExistInOrder` | network/socket_epoll/tcp_echo1/common/ring_buffer.h:76-101 | read in order, the exist segments are the stored bytes, wrapped cursors included |
| `RingBuffers.BlankInOrder` | network/socket_epoll/tcp_echo1/common/ring_buffer.h:40-74 | written in order, the blank segments continue the stored bytes |
| `RingBuffers.SegmentsPartition` | network/socket_epoll/tcp_echo1/common/ring_buffer.h:40-101 | the two kinds of segments are disjoint and together are all cells but one |
| `RingBuffers.FirstSegmentNonempty` | network/socket_epoll/tcp_echo1/common/ring_buffer.h:40-101 | the first segment is non-empty iff its side is, so a call that offers only it has no zero length |
| `RingBuffers.RingBuffer.GetBlankSize` | network/socket_epoll/tcp_echo1/common/ring_buffer.h:30-33 | the size in 64-bit and then 32-bit arithmetic is the room left |
| `RingBuffers.RingBuffer.GetExistSize` | network/socket_epoll/tcp_echo1/common/ring_buffer.h:35-38 | the size is the number of stored bytes |
| `RingBuffers.RingBuffer.GetBlankIovec` | network/socket_epoll/tcp_echo1/common/ring_buffer.h:40-74 | fills the array with the blank segments |
| `RingBuffers.RingBuffer.GetExistIovec` | network/socket_epoll/tcp_echo1/common/ring_buffer.h:76-101 | fills the array with the exist segments |
| `RingBuffers.RingBuffer.AddBlank` | network/socket_epoll/tcp_echo1/common/ring_buffer.h:103-106 | drops the first bytes stored and keeps the rest in order |
| `RingBuffers.RingBuffer.AddExist` | network/socket_epoll/tcp_echo1/common/ring_buffer.h:108-111 | appends the bytes the kernel has placed in the blank segments |
| `EchoRuns.TakesSome` | network/socket_epoll/tcp_echo1/main/server_epoll_lt_recvmsg.cpp:130-188 | a receive takes a prefix of what arrived that fits, all of it if both segments are offered and it fits, something whenever there are room and bytes |
| `EchoRuns.GivesSome` | network/socket_epoll/tcp_echo1/main/server_epoll_lt_recvmsg.cpp:226-293 | a send takes a prefix of what is stored, as much as the kernel accepts of what is offered, and something if any is stored and accepted |
| `EchoRuns.EventBrings` | network/socket_epoll/tcp_echo1/main/server_epoll_lt_recvmsg.cpp:336-390 | an event adds all of the bytes that arrived, unless the ring, or the one segment offered, is then full; it adds nothing iff its receive is not reached, nothing arrived, or the ring was full |
| `EchoRuns.EventSends` | network/socket_epoll/tcp_echo1/main/server_epoll_lt_recvmsg.cpp:336-390 | each of an event's sends takes as many bytes as the kernel accepts of what is stored, or of the one segment offered, and they leave the ring, oldest first; a writable report with bytes stored sends some |
| `EchoRuns.EventDoes` | network/socket_epoll/tcp_echo1/main/server_epoll_lt_recvmsg.cpp:336-390 | the whole effect of an event from what the kernel did: bytes sent, bytes added, bytes sent after that, cursor, and whether the connection stays open |
| `EchoRuns.EventCloses` | network/socket_epoll/tcp_echo1/main/server_epoll_lt_recvmsg.cpp:365-390 | an event closes the connection iff it reports something unknown, or a call it makes fails or meets the end of the stream |
| `EchoRuns.RunEchoes` | network/socket_epoll/tcp_echo1/main/server_epoll_lt_recvmsg.cpp:130-390 | after any events, bytes received = bytes sent ++ bytes stored |
| `EchoRuns.RunBrings` | network/socket_epoll/tcp_echo1/main/server_epoll_lt_recvmsg.cpp:336-390 | in a run every event adds and sends all that it can, and everything received is the concatenation of what the events added |
| `EchoConnection.Connection.SetEpoll` | network/socket_epoll/tcp_echo1/main/server_epoll_lt_recvmsg.cpp:75-127 | the cached mask changes in one bit and is the one the kernel has |
| `EchoConnection.Connection.RecvBuf` | network/socket_epoll/tcp_echo1/main/server_epoll_lt_recvmsg.cpp:130-188 | appends what `EchoRuns.RecvDoes` spells out: all of the arrived bytes that fit what was offered; waits for input iff there is room, and fails exactly on end of stream or error |
| `EchoConnection.Connection.Receive` | network/socket_epoll/tcp_echo/server_epollout_epollin_handle_native.cpp:336-352 | a receive into both segments, or only the first, leaves the stored bytes alone and takes none only at end of stream |
| `EchoConnection.Connection.SendBuf` | network/socket_epoll/tcp_echo1/main/server_epoll_lt_recvmsg.cpp:226-293 | removes what `EchoRuns.SendDoes` spells out: as many stored bytes as the kernel accepted of what was offered; waits for output iff bytes are left, and fails exactly on error |
| `EchoConnection.Connection.Transmit` | network/socket_epoll/tcp_echo/server_epollout_epollin_handle_native.cpp:482-496 | a send of both segments, or only the first, takes a prefix of the stored bytes |
| `EchoConnection.Connection.HandleRead` | network/socket_epoll/tcp_echo1/main/server_epoll_lt_recvmsg.cpp:336-351 | ring and histories become exactly what the receive, and then the send of what it brought, make of them; back-pressure is kept |
| `EchoConnection.Connection.HandleWrite` | network/socket_epoll/tcp_echo1/main/server_epoll_lt_recvmsg.cpp:353-363 | ring and histories become exactly what the send makes of them; back-pressure is kept |
| `EchoConnection.Connection.Handle` | network/socket_epoll/tcp_echo1/main/server_epoll_lt_recvmsg.cpp:365-390 | ring, histories and whether the connection stays open are exactly what the event says; while open, output is waited for iff bytes are stored, input iff there is room, so never nothing |
| `EchoConnection.Connection.Serve` | network/socket_epoll/tcp_echo1/main/server_epoll_lt_recvmsg.cpp:43-390 | a run leaves ring and histories as its events say, in order, up to the first that closes; bytes received = bytes sent ++ bytes stored |
| `CoroutineEcho.StepKept` | network/socket_epoll/tcp_echo/server_epoll_et_ucontext1.cpp:109-341 | every system call, switch and test keeps the invariant, with the peer acting at any point |
| `CoroutineEcho.ExactlyOneWaits` | network/socket_epoll/tcp_echo/server_epoll_et_ucontext1.cpp:109-341 | when the loop or handler has control, the coroutine waits to receive, waits to send, or has exited: exactly one |
| `CoroutineEcho.NoLostEdge` | network/socket_epoll/tcp_echo/server_epoll_et_ucontext1.cpp:201-341 | a coroutine suspended although data or room is there has an edge pending or in the handler's hand |
| `CoroutineEcho.EchoIsFifo` | network/socket_epoll/tcp_echo/server_epoll_et_ucontext1.cpp:201-302 | what arrived = what was sent ++ what the buffer holds ++ what the socket holds |
| `CoroutineEcho.WorkDecreases` | network/socket_epoll/tcp_echo/server_epoll_et_ucontext1.cpp:201-341 | every step the connection takes by itself lowers a bound |
| `CoroutineEcho.ComesToRest` | network/socket_epoll/tcp_echo/server_epoll_et_ucontext1.cpp:201-341 | left alone, a connection takes a bounded number of steps and stops only at rest or deleted |
| `CoroutineEcho.RestMeansEchoed` | network/socket_epoll/tcp_echo/server_epoll_et_ucontext1.cpp:201-341 | at rest everything that arrived has been echoed, or the socket has no room |
| `CoroutineEcho.ResumedByReport` | network/socket_epoll/tcp_echo/server_epoll_et_ucontext1.cpp:309-335 | in every run a suspended coroutine is resumed only by the handler of a report of what it waits for |
| `CoroutineEcho.ExitDeletes` | network/socket_epoll/tcp_echo/server_epoll_et_ucontext1.cpp:177-330 | an exit deletes the connection iff a handler, not start(), had resumed the coroutine |
| `CoroutineEcho.LeftBehind` | network/socket_epoll/tcp_echo/server_epoll_et_ucontext1.cpp:177-341 | a connection left behind by start() stays for ever, unless an error is reported |
| `CoroutineEcho.OutlivesExit` | network/socket_epoll/tcp_echo/server_epoll_et_ucontext1.cpp:177-341 | in every run, an exited connection is still there iff its coroutine ended inside start() and no error has been reported since |
| `CoroutineEcho.HangUpDeletes` | network/socket_epoll/tcp_echo/server_epoll_et_ucontext1.cpp:309-315 | a delivered report of an error or a hang-up deletes the connection for good, exited or not |
| `CoroutineEcho.DeletedOnlyBy` | network/socket_epoll/tcp_echo/server_epoll_et_ucontext1.cpp:309-335 | nothing deletes a connection but such a report or the exit of a coroutine that a handler had resumed |
| `CoroutineEcho.ClosedBeforeStart` | network/socket_epoll/tcp_echo/server_epoll_et_ucontext1.cpp:177-236 | a run from a start state that leaves a connection behind: the peer has closed before start() receives |
| `CoroutineEcho.ExitCauses` | network/socket_epoll/tcp_echo/server_epoll_et_ucontext1.cpp:238-306 | what ends the coroutine, exactly; a failed send alone does not |
| `CoroutineEcho.FailedBufferEnds` | network/socket_epoll/tcp_echo/server_epoll_et_ucontext1.cpp:238-306 | in every run, once a send of a buffer has failed the coroutine stays with that buffer and exits iff await_send has sent all of it |
| `CoroutineEcho.FailingSendSpins` | network/socket_epoll/tcp_echo/server_epoll_et_ucontext1.cpp:238-275 | for every n a run with n failing sends in a row, after which await_send is about to send again |
| `BoundedQueue.WrittenSlot` | c/process/process_communication/bounded_blocking_queue_semaphore_mmap_unnamed1/bounded_blocking_queue.cpp:32-33 | a slot's bytes are read back as written, and no other slot changes |
| `BoundedQueue.BoundedBlockingQueue.Store` | c/process/process_communication/bounded_blocking_queue_semaphore_mmap_unnamed1/bounded_blocking_queue.cpp:32-33 | the memcpy of put writes exactly the slot of the write cursor, which advances |
| `BoundedQueue.BoundedBlockingQueue.Load` | c/process/process_communication/bounded_blocking_queue_semaphore_mmap_unnamed1/bounded_blocking_queue.cpp:49-50 | the memcpy of take reads exactly the slot of the read cursor, which advances |
| `ProducersConsumers.StopItem` | c/process/process_communication/bounded_blocking_queue_semaphore_mmap_unnamed1/main.cpp:32-42 | among the bytes a producer puts, only the last node reads as a stop node |
| `ProducersConsumers.ItemReadsBack` | c/process/process_communication/bounded_blocking_queue_semaphore_mmap_unnamed1/main.cpp:32-42 | read as two little-endian ints, the ord-th node of a producer is (id, ord), and its stop node is (-1, 0) |
| `ProducersConsumers.StopReadsBack` | c/process/process_communication/bounded_blocking_queue_semaphore_mmap_unnamed1/main.cpp:53 | a consumer stops exactly at a node whose author reads as -1 |
| `ProducersConsumers.StepSemaphores` | c/process/process_communication/bounded_blocking_queue_semaphore_mmap_unnamed1/bounded_blocking_queue.cpp:25-57 | every semaphore operation and critical section keeps each semaphore's units accounted for |
| `ProducersConsumers.StepSlots` | c/process/process_communication/bounded_blocking_queue_semaphore_mmap_unnamed1/bounded_blocking_queue.cpp:25-57 | every step keeps the unread nodes intact, byte for byte, between the cursors |
| `ProducersConsumers.RunKept` | c/process/process_communication/bounded_blocking_queue_semaphore_mmap_unnamed1/main.cpp:28-61 | the invariant holds in every state of every run |
| `ProducersConsumersTheorems.SlotsConserved` | c/process/process_communication/bounded_blocking_queue_semaphore_mmap_unnamed1/bounded_blocking_queue.cpp:6-57 | empty + full + processes inside a call = the queue's size; the cursors are at most that far apart |
| `ProducersConsumersTheorems.CriticalSectionsAreSafe` | c/process/process_communication/bounded_blocking_queue_semaphore_mmap_unnamed1/bounded_blocking_queue.cpp:28-53 | critical sections exclude each other; no unread slot is overwritten and no unwritten slot is read |
| `ProducersConsumersTheorems.TakesAreFifo` | c/process/process_communication/bounded_blocking_queue_semaphore_mmap_unnamed1/bounded_blocking_queue.cpp:25-57 | the k-th take returns the k-th put |
| `ProducersConsumersTheorems.PutsInProgramOrder` | c/process/process_communication/bounded_blocking_queue_semaphore_mmap_unnamed1/main.cpp:28-46 | each producer's nodes enter the queue once each and in order |
| `ProducersConsumersTheorems.NodesReadBack` | c/process/process_communication/bounded_blocking_queue_semaphore_mmap_unnamed1/main.cpp:28-61 | in every run the k-th node put, and the k-th taken, reads as the (id, ord) or (-1, 0) that its producer's program says |
| `ProducersConsumersTheorems.CursorsAreBounded` | c/process/process_communication/bounded_blocking_queue_semaphore_mmap_unnamed1/bounded_blocking_queue.h:11-13 | the cursors stay within the number of nodes, hence in 32 bits for fewer than 2^31 |
| `ProducersConsumersTheorems.StopsAreCounted` | c/process/process_communication/bounded_blocking_queue_semaphore_mmap_unnamed1/main.cpp:41-57 | each stop node taken belongs to one consumer, each one put to one producer |
| `ProducersConsumersTheorems.EverythingIsConsumed` | c/process/process_communication/bounded_blocking_queue_semaphore_mmap_unnamed1/main.cpp:94-106 | when all have exited, every node put was taken, in order, and every consumer took one stop node |
| `ProducersConsumersTheorems.TooFewStops` | c/process/process_communication/bounded_blocking_queue_semaphore_mmap_unnamed1/main.cpp:48-61 | with fewer producers than consumers some consumer never exits |
| `ProducersConsumersTheorems.ConsumersFinish` | c/process/process_communication/bounded_blocking_queue_semaphore_mmap_unnamed1/main.cpp:28-61 | in a run that cannot go on, all consumers have exited iff there are at least as many producers |
| `ProducersConsumersTheorems.StuckIsDone` | c/process/process_communication/bounded_blocking_queue_semaphore_mmap_unnamed1/main.cpp:28-61 | a run that cannot go on has finished iff the nodes nobody took fit into the queue; the number taken is the run's own, so this is a step towards `FinishesIffLeftOversFit` |
| `ProducersConsumersTheorems.EnoughRoom` | c/process/process_communication/bounded_blocking_queue_semaphore_mmap_unnamed1/main.cpp:28-61 | so it has if all nodes but one for each consumer fit |
| `ProducersConsumersTheorems.ExtraProducerBlocks` | c/process/process_communication/bounded_blocking_queue_semaphore_mmap_unnamed1/main.cpp:28-61 | a run of two producers, one slot and no consumer that stops with the second producer blocked |
| `ProducersConsumersLeftOver.PrefixCounts` | c/process/process_communication/bounded_blocking_queue_semaphore_mmap_unnamed1/main.cpp:28-46 | the first k puts are the producers' first nodes, and the stop nodes among them belong to the producers whose nodes are all among them |
| `ProducersConsumersLeftOver.FitMeansDone` | c/process/process_communication/bounded_blocking_queue_semaphore_mmap_unnamed1/main.cpp:28-61 | if the nodes of any producers that may be left over fit, a run that cannot go on has finished |
| `ProducersConsumersLeftOver.SomeRunBlocks` | c/process/process_communication/bounded_blocking_queue_semaphore_mmap_unnamed1/main.cpp:28-61 | if some do not fit there is a run that blocks: all others run to their end first |
| `ProducersConsumersLeftOver.FinishesIffLeftOversFit` | c/process/process_communication/bounded_blocking_queue_semaphore_mmap_unnamed1/main.cpp:28-61 | for any processes and any queue, every run that cannot go on has all processes exited iff producers are at least as many as consumers and all possible left-overs fit |
| `ProducersConsumersTheorems.NoDeadlock` | c/process/process_communication/bounded_blocking_queue_semaphore_mmap_unnamed1/main.cpp:28-61 | with as many producers as consumers, any item counts and any capacity of at least 1, somebody can always move until all have exited |
| `ProducersConsumersTheorems.EveryRunEnds` | c/process/process_communication/bounded_blocking_queue_semaphore_mmap_unnamed1/main.cpp:28-61 | every run has at most ten steps for each node and two for each consumer, and one that cannot go on has consumed everything |
| `Checksum.OnesSumIsSum` | kernel_module/network/my_l4_protocol/example/client_v4.cpp:57-60 | the one's complement sum is the plain sum of the words modulo 0xFFFF, with 0xFFFF for a positive multiple |
| `Checksum.FoldAdds` | kernel_module/network/my_l4_protocol/example/client_v4.cpp:43-62 | the upper half of a word plus its halves swapped, with the word's own overflow, is the end-around sum of the halves, for every width |
| `Checksum.AddHalvesKeeps` | kernel_module/network/my_l4_protocol/example/client_v4.cpp:43-62 | a fold keeps the value modulo 0xFFFF and keeps whether it is zero |
| `Checksum.CsumFold` | kernel_module/network/my_l4_protocol/example/client_v4.cpp:40-45 | the result is the complement of the 16-bit one's complement value of the argument |
| `Checksum.IpFastCsum` | kernel_module/network/my_l4_protocol/example/client_v4.cpp:47-64 | the loop's result complements the header's one's complement sum if the 64-bit accumulation does not wrap, and otherwise a sum that lacks one carry |
| `Checksum.FoldedResult` | kernel_module/network/my_l4_protocol/example/client_v4.cpp:52-63 | folding the accumulator once the loop is done, wrapped or not, against the 16-bit one's complement sum of all the words |
| `Checksum.FastFormIsChecksum` | kernel_module/network/my_l4_protocol/example/client_v4.cpp:47-64 | so a result is the checksum of section 1 of RFC 1071 iff the accumulation does not wrap |
| `Checksum.ByteOrderIndependent` | kernel_module/network/my_l4_protocol/example/client_v4.cpp:47-64 | summing in the other byte order gives the sum with its bytes swapped (section 2(B) of RFC 1071) |
| `Checksum.CheckedHeader` | kernel_module/network/my_l4_protocol/example/client_v4.cpp:67-71 | with the result in its field the header sums to 0xFFFF in either byte order, iff the accumulation does not wrap |
| `Checksum.IpSendCheck` | kernel_module/network/my_l4_protocol/example/client_v4.cpp:67-71 | writes only the checksum field, and makes the header sum to 0xFFFF under that condition |
| `Checksum.WrappingHeader` | kernel_module/network/my_l4_protocol/example/client_v4.cpp:57-60 | a header on which the accumulation wraps, so no result is its checksum |
| `ResponseServer.Connection.constructor` | network/socket_epoll/tcp_echo/server_epollout_response.cpp:187-203 | a new connection owes nothing and waits for input only |
| `ResponseServer.SecondSegment` | network/socket_epoll/tcp_echo/server_epollout_response.cpp:273-294 | once the first blank segment is full, the second is the next to fill, so receiving into both in turn is right |
| `ResponseRuns.DecodeKept` | network/socket_epoll/tcp_echo/server_epollout_response.cpp:357-360 | taking out whole requests leaves fewer than 8 bytes and has counted one request, and one response owed, for every 8 bytes received |
| `ResponseRuns.SendLoop` | network/socket_epoll/tcp_echo/server_epollout_response.cpp:369-411 | the send loop makes some number of sends, each of which advances by all that the kernel accepts of the rest of the response, or of the next one; then it stops with nothing owed, at a send that takes none, or at one that fails, and fails only then |
| `ResponseRuns.SendKept` | network/socket_epoll/tcp_echo/server_epollout_response.cpp:369-411 | whatever the sends take, bytes sent + bytes owed stay the same and the stream stays copies of the response |
| `ResponseRuns.EventBrings` | network/socket_epoll/tcp_echo/server_epollout_response.cpp:263-297 | an event adds all that the first receive delivers, unless its segment is then full, and if that filled the first of two segments all of the second receive, unless the ring is then full |
| `ResponseRuns.EventSends` | network/socket_epoll/tcp_echo/server_epollout_response.cpp:369-456 | what an event's two series of sends take, send by send, and where each stops |
| `ResponseRuns.EventCloses` | network/socket_epoll/tcp_echo/server_epollout_response.cpp:431-456 | an event closes the connection iff it reports something unknown, a receive that it makes fails or meets the end of the stream, or a send fails that it makes while some is pending |
| `ResponseRuns.RunKept` | network/socket_epoll/tcp_echo/server_epollout_response.cpp:187-456 | after any events, bytes sent + responses owed = response size times requests, and the stream is copies of the response |
| `ResponseRuns.RunBrings` | network/socket_epoll/tcp_echo/server_epollout_response.cpp:263-297 | everything received in a run is the concatenation of what its events brought |
| `ResponseRuns.RunAnswers` | network/socket_epoll/tcp_echo/server_epollout_response.cpp:347-411 | after an event with a peer that takes what is sent, exactly one response has been sent for each 8 bytes received |
| `ResponseServer.Connection.RecvBufNative` | network/socket_epoll/tcp_echo/server_epollout_response.cpp:263-297 | appends exactly what the first receive delivers and, if that filled its segment, what the second one does; fails exactly if a receive it makes ends; returns the number of bytes |
| `ResponseServer.Connection.DecodeRequests` | network/socket_epoll/tcp_echo/server_epollout_response.cpp:357-360 | every 8 bytes received count as one request; fewer than 8 stay buffered |
| `ResponseServer.Connection.RecvRequest` | network/socket_epoll/tcp_echo/server_epollout_response.cpp:347-366 | the connection becomes exactly what the receives, the decoding and the sends make of it; bytes, requests and responses stay accounted for |
| `ResponseServer.Connection.SendResponse` | network/socket_epoll/tcp_echo/server_epollout_response.cpp:369-411 | sends call by call what `ResponseRuns.SendLoop` spells out; on success output is waited for iff something is pending |
| `ResponseServer.Connection.UpdateInterest` | network/socket_epoll/tcp_echo/server_epollout_response.cpp:399-407 | output is waited for when the socket takes nothing and no longer when nothing is pending |
| `ResponseServer.Connection.Handle` | network/socket_epoll/tcp_echo/server_epollout_response.cpp:431-456 | buffer, counters, histories and whether the connection stays open are exactly what the event says; after a return of 0 output is waited for iff something is pending, and fewer than 8 bytes are buffered |
| `ResponseServer.Connection.Serve` | network/socket_epoll/tcp_echo/server_epollout_response.cpp:187-456 | a run leaves the connection as its events say, in order, up to the first that closes; bytes sent + responses owed = response size times requests, and the stream is copies of the response |
| `Pipeline.FlowKept` | cpp/demo/asio/cpp11/executors/pipeline.cpp:130-172 | every push, pop and stop keeps what has been consumed and is still to come equal to the stages composed |
| `Pipeline.StagesKept` | cpp/demo/asio/cpp11/executors/pipeline.cpp:130-172 | every step keeps the reasons for which stages sleep and end |
| `Pipeline.ConsumesInOrder` | cpp/demo/asio/cpp11/executors/pipeline.cpp:179-238 | at every moment the last stage has consumed a prefix of the composition |
| `Pipeline.PopIsHonest` | cpp/demo/asio/cpp11/executors/pipeline.cpp:160-172 | pop returns false only with this queue and all before it stopped and drained; a sleeping stage's queue is empty and not stopped |
| `Pipeline.FinishedMeansComposed` | cpp/demo/asio/cpp11/executors/pipeline.cpp:179-238 | when the last stage has finished it has consumed exactly the composition |
| `Pipeline.NoDeadlock` | cpp/demo/asio/cpp11/executors/pipeline.cpp:130-172 | until then some stage can work without any spurious wake-up |
| `Pipeline.RunIsBounded` | cpp/demo/asio/cpp11/executors/pipeline.cpp:179-238 | apart from spurious wake-ups a run takes at most a number of steps fixed by its input |
| `Pipeline.UpperLine` | cpp/demo/asio/cpp11/executors/pipeline.cpp:269-272 | the loop keeps the length, turns a to z into A to Z, and leaves every other character |
| `Pipeline.FilterIsLong` | cpp/demo/asio/cpp11/executors/pipeline.cpp:256-262 | the filter stage keeps the lines longer than five characters, in order |
| `Pipeline.ProgramOutput` | cpp/demo/asio/cpp11/executors/pipeline.cpp:256-290 | under every interleaving the program's last stage gets the long lines of the input, in order, with a to z turned into A to Z and all other characters kept |
| `ActorRing.MainKept` | cpp/demo/asio/cpp11/executors/actor.cpp:276-286 | each step of the set-up, start and collect loops keeps the invariant, with members already running |
| `ActorRing.HandleKept` | cpp/demo/asio/cpp11/executors/actor.cpp:229-250 | each message a member handles keeps it |
| `ActorRing.ReceiveKept` | cpp/demo/asio/cpp11/executors/actor.cpp:189-205 | each message the receiver queues keeps it |
| `ActorRing.NoTokenIsDropped` | cpp/demo/asio/cpp11/executors/actor.cpp:156-167 | a member that comes to a token knows its successor (k + 1) mod n and has its token handler |
| `ActorRing.TokensConserved` | cpp/demo/asio/cpp11/executors/actor.cpp:276-286 | each token started is in one mailbox or was signalled, once; in all, as many as were started |
| `ActorRing.EnergyDrops` | cpp/demo/asio/cpp11/executors/actor.cpp:238-250 | the sum of value + 1 over the tokens on their way drops by one with each token handled |
| `ActorRing.EveryRunEnds` | cpp/demo/asio/cpp11/executors/actor.cpp:256-287 | until all is at rest something can move, and every complete run has exactly n(T + 6) + 2 steps |
| `ActorRing.ReceiverGetsAllZeros` | cpp/demo/asio/cpp11/executors/actor.cpp:280-286 | the receiver gets n zeros, one for the token started at each k, sent by member (k + T) mod n |

## Left out

- Sockets, `epoll_wait`, `accept`, `fork`, `mmap`, argument parsing and printing: their results are parameters or nondeterministic steps. A failing `epoll_ctl` is only printed by the code and is not a step.
- Weak memory: all steps are sequentially consistent.
- Allocation failure in `pe_map_insert` returns -1 before any change and is not a step; failures while a map is created, and `pe_map_destroy` apart from its flush, are not modelled.
- Concurrent parts are values and steps, not classes updated in place: update in place, aliasing and order are captured by the granularity of the steps. The in-place form is kept for the sequential parts.
- Values of a map entry other than key, value and links; `value` is written once, before the entry is published.
- The growth of `thread_count_` while a fork/join pool is constructed (it is fixed, at least 1), exceptions thrown by tasks, and submissions from outside the pool after its destructor has begun.
- Joins of groups created by other code than the task or thread that joins: the program has none, and the pool's freedom from deadlock rests on it.
- ForkJoinSortTheorems.PoolSorts: the sort is the pool's only user and the pool is stopped after the sort has returned, as in the program; elements are reals and the array is a sequence; NaN, for which the comparison of `double` is not an order, is outside `std::sort`'s contract.
- CoroutineEcho.ComesToRest: does not cover a socket on which every `send` fails for good, because `await_send` then never ends (see above).
- Echo and response events carry what the kernel does during them; that a level-triggered loop is called again while something it waits for is ready is the kernel's part.
- Integer overflow of `response_cnt` (2^63 requests) and of the queue's 32-bit cursors beyond 2^31 nodes.
- `bbq_empty`, which nothing calls, and `bbq_destroy`.
- Pipeline stages that share an executor with a single thread, which the program does not do.
- The iteration of `actor::call_handler` over a handler list that a handler edits: an actor is uninitialised or ready.
- The other copies of the same classes in the repository, the lock-only hash map, `chat_message`, `priority_scheduler`, `get_p99` and the demos of library features: they add nothing harder.
