# Verification of the reactor library

A Dafny model of network_ydxlib, the parts whose correctness is not visible from one body: the intrusive
lists and their RCU forms, the hand-off of functors to an event loop, the registration of channels with
epoll, the worker pool and the latch, the byte buffer, and the connections above it from connector to
server.  `dafny verify dfyconfig.toml` checks everything.

Code that runs on one thread is modelled in its own form: a class with the same fields, methods with the
same branches, arrays and links changed in place.  What the kernel decides (how many bytes `write` takes,
what `readv` delivers, how a `connect` ends) is a parameter, so a contract holds for every decision.
Fields and parameters marked `ghost` only record history.  Code whose point is concurrency is modelled as
a state machine: a `Label` is one atomic step (a single store, one critical section, one system call),
`Enabled` says when a thread may take it, `Apply` what it does, and `IsRun` is any finite interleaving.
Theorems about runs hold at every index of every run.

| file | module | what it models |
|---|---|---|
| RingList.dfy | RingList | ring lists of linux_list.h, in place, against sequences of nodes |
| HashList.dfy | HashList | hash lists with their back pointers to slots |
| RcuList.dfy | RcuList | RCU add, delete and traverse for both kinds of list, store by store |
| EventLoop.dfy | EventLoop | pending functors, eventfd wakeup, quit |
| Epoll.dfy | Epoll | Channel, EPollPoller's registration, the kernel's interest set |
| ThreadPool.dfy, Latch.dfy | ThreadPool, Latch | the monitors |
| Buffer.dfy | ByteBuffer | Buffer with scatter read |
| Connection.dfy | Connection | TcpConnection |
| Connector.dfy, Client.dfy | Connecting, Client | Connector with a ledger of sockets, TcpClient |
| ServerLifecycle.dfy | ServerLifecycle | the connections of a TcpServer across loops |
| Naming.dfy, Placement.dfy | Naming, Placement | connection names, choice of the IO loop |
| SeqOps.dfy | SeqOps | insertion and removal in sequences |

Some properties that the code seems to promise hold under a condition only.  Each has an equivalence:
`EventLoop.SafeLoopPush` (a loop-thread `queueInLoop` outside callbacks), `ThreadPool.ProducerReturnsAfterStop`
(`stop` wakes workers only), `ServerLifecycle.DoubleClose` and `ServerLifecycle.SendOnLiveOnly` (the assert in
`handleClose`), `Naming.NamesDistinct` (the 32-byte name buffer), `Connecting.Connector.Start` (a start while
connecting leaks a socket), `Epoll.EPollPoller.UpdateChannel` (two channels on one descriptor).
`EventLoop.StrandedBeforePoll`, `ThreadPool.ProducerStrandedByStop` and `ServerLifecycle.SendAfterClose` are
runs that fail.

`TcpConnection` and the connections of ServerLifecycle are the same objects at two scales.  They share the
functions `AfterEstablished`, `AfterClosed` and `AfterDestroyed`: the methods of the one are proved against
them, the steps of the other are made of them.

## Model

| member | source | states |
|---|---|---|
| RingList.RingIsUnique | linux_list.h:57-68 | the links determine the sequence that a ring stands for, so the contracts below fix the whole list |
| RingList.Link | linux_list.h:76-84 | a node put between two neighbours appears there in the ring; only three nodes are written |
| RingList.ListAdd | linux_list.h:94-97 | insertion right after a node; after the head this is cons |
| RingList.ListAddTail | linux_list.h:107-110 | insertion right before a node; before the head this is snoc |
| RingList.Unlink | linux_list.h:178-182 | the entry between two neighbours disappears from the ring and nothing else changes |
| RingList.ListDelInit | linux_list.h:231-235 | the entry leaves its ring and is a ring of its own; a lone entry stays one |
| RingList.ListMove | linux_list.h:242-246 | the entry leaves its ring and follows the given node, within one ring or between two disjoint ones |
| RingList.ListMoveTail | linux_list.h:253-258 | the same, in front of the given node |
| RingList.ListEmpty | linux_list.h:264-267 | true exactly for a ring that is just its head |
| RingList.Splice | linux_list.h:287-299 | all entries of one list, in order, land after a node of a disjoint one |
| RingList.ListSpliceInit | linux_list.h:319-326 | the same, with the emptied list initialised, and no change if it was empty |
| RingList.ForEachSafe | linux_list.h:374-376 | a loop that deletes any choice of current entries visits each original entry once in order, terminates, leaves the others in order and the deleted ones initialised |
| HashList.SlotPointsBack | linux_list.h:517-519 | the slot invariant: what the back pointer of a linked node points to is the node |
| HashList.HListIsUnique | linux_list.h:513-519 | the links determine the sequence of a hash list |
| HashList.HlistAddHead | linux_list.h:587-595 | cons |
| HashList.HlistAddBefore | linux_list.h:630-637 | insertion before a node, whether its slot is in the head or in a node |
| HashList.HlistAddAfter | linux_list.h:639-648 | insertion after a node |
| HashList.Unhash | linux_list.h:536-543 | removal without knowing the head |
| HashList.HlistDelInit | linux_list.h:577-583 | removal and initialisation; a node that is in no list is left alone, so twice is once |
| RcuList.RunNeverFaults | linux_list.h:118-225 | in every interleaving no writer or reader step follows a poisoned or unset pointer |
| RcuList.NullIsNeverWritten | linux_list.h:536-543 | in a hash list no store goes through a NULL successor |
| RcuList.RunInv | linux_list.h:118-225 | in every reachable state no forward link, not even of a removed node, leads over a linked node |
| RcuList.StoreIsAtomic | linux_list.h:118-126 | each single store leaves the list that a traversal from the head sees as it is, or inserts or removes the one node at its place |
| RcuList.OperationBegins | linux_list.h:144-169 | where each operation is going to insert or what it is going to remove; until its first store the list is the old one |
| RcuList.OperationInRun | linux_list.h:118-225 | at every index of a run at which an operation is under way, with readers in between, the list seen is exactly the old or exactly the new one, and the new one when it is over |
| RcuList.WholeOperation | linux_list.h:144-225 | from its begin to its last store, add is cons after its node, add_tail is insertion before its node (snoc for the head), delete is removal |
| RcuList.OperationCompletes | linux_list.h:118-225 | an operation can begin whenever no other one is under way, and four stores (an insertion) or three (a removal) finish it with that effect |
| RcuList.TraversalEnds | linux_list.h:450-452 | a reader at any node, removed or not, that is left alone visits the nodes ahead, one in each step, and then leaves the loop |
| RcuList.UndisturbedTraversal | linux_list.h:450-452 | a traversal that no writer disturbs visits exactly the list |
| RcuList.RestoredWhenIdle | linux_list.h:571-575 | between operations next and prev (or pprev) are inverse on linked nodes and removed nodes are poisoned |
| RcuList.ChainFromAnywhere | linux_list.h:205-206 | from every node, removed ones included, the forward chain is finite, ends at the head, is in list order and meets every linked node ahead |
| RcuList.ReaderComplete | linux_list.h:450-452 | over any interleaving a finished traversal visited every node that stayed linked throughout, exactly once, in list order |
| EventLoop.FunctorsConserved | epoller.cpp:306-347 | in every run: executed, then the rest of the batch, then the queue is the sequence of functors that the queueInLoop calls of the run were given |
| EventLoop.CounterCounts | epoller.cpp:283-328 | the eventfd counter holds exactly the wakeup() calls since handleRead() drained it last |
| EventLoop.NoStrandedFunctor | epoller.cpp:87-134 | at epoll_wait with functors queued or after a quit(), a wakeup() is not drained yet, or a thread that pushed or quit has yet to call it |
| EventLoop.QueuedFunctorsRun | epoller.cpp:100-121 | one round from epoll_wait executes all that is queued and drains the counter |
| EventLoop.OthersAreHeard | epoller.cpp:306-357 | any thread can queue a functor or quit the loop in any state, and with its wakeup() epoll_wait has a reason to return |
| EventLoop.QuitForGood | epoller.cpp:350-357 | after quit() from any thread quit_ stays set, and each test of it ends the loop |
| EventLoop.QuitEnds | epoller.cpp:87-134 | after quit() the loop comes to its end by its own steps, from wherever it is |
| EventLoop.SafeLoopPush | epoller.cpp:306-317 | a loop-thread push never leaves the loop waiting with functors queued and no wakeup, however the run goes on, exactly if it is made in a callback or functor, or callingPendingFunctors_ is set, or a wakeup is on its way, or quit_ is about to be found |
| EventLoop.StrandedBeforePoll | epoller.cpp:313-316 | a run in which a functor queued just before poll() waits without any wakeup |
| EventLoop.BatchIsFixed | epoller.cpp:331-347 | while a batch runs it does not change, its functors run in order, and new ones stay queued |
| EventLoop.BatchCompletes | epoller.cpp:342-346 | one doPendingFunctors call executes exactly what was queued at its swap |
| Epoll.EPollPoller.UpdateChannel | epoller.cpp:199-232 | registration follows the mask, index mirrors the kernel, every call is legal; without a second channel on the descriptor the failure branch is never taken, and when it is taken |
| Epoll.EPollPoller.RemoveChannel | epoller.cpp:236-255 | the descriptor is gone from channels_ and kernel, the channel is new again, no illegal call |
| Epoll.Channel.HeldIffAdded | epoller.cpp:33-35 | index is kAdded exactly if the kernel holds the descriptor, and then with this channel and its current mask |
| Epoll.Channel.EnableReading | channel.h:31 | the mask gains the read events and the kernel knows it |
| Epoll.Channel.DisableReading | channel.h:32 | the mask loses the read events; an empty mask is deregistered |
| Epoll.Channel.EnableWriting | channel.h:33 | the kernel watches for EPOLLOUT |
| Epoll.Channel.DisableWriting | channel.h:34 | the kernel does not watch for EPOLLOUT |
| Epoll.Channel.DisableAll | channel.h:35 | a registered descriptor leaves the kernel; one that was not registered enters it with an empty mask |
| Epoll.Channel.Remove | channel.cpp:28-31 | the channel leaves poller and kernel whatever its mask |
| Epoll.DispatchHears | channel.cpp:35-70 | which callbacks an event runs, in order and once each; none goes unheard |
| Epoll.ClosesAndReads | channel.cpp:35-70 | the events on which one dispatch runs both the close and the read callback |
| ThreadPool.CarriesItsTask | thread_pool.cpp:61-77 | a producer in run() still has the task it was called with, however long it waits |
| ThreadPool.TasksConserved | thread_pool.cpp:61-137 | in every run the tasks that workers started, then the queue, are the tasks of the run() calls that returned, in order, and a positive bound holds |
| ThreadPool.TaskGetsTaken | thread_pool.cpp:82-137 | a worker that can go on comes to execute the first queued task within three steps of its own |
| ThreadPool.FreeSlotTakesTask | thread_pool.cpp:61-77 | a producer awake in run() that finds a free slot queues its task, leaves, and wakes a sleeping worker |
| ThreadPool.RunInv | thread_pool.cpp:61-142 | while a worker sleeps every queued task has a woken worker; while a producer sleeps every free slot has a woken producer |
| ThreadPool.NeverAllAsleep | thread_pool.cpp:61-137 | while running, a queued task has a worker neither asleep nor gone, a free slot has a blocked producer awake, and blocked producers always have someone who can go on |
| ThreadPool.UnboundedNeverBlocks | thread_pool.cpp:61-80 | without a bound on the queue no producer ever sleeps |
| ThreadPool.RunQueuesTask | thread_pool.cpp:61-77 | run(t) with a free slot queues t |
| ThreadPool.StoppedForGood | thread_pool.cpp:30-36 | after stop() the pool never runs again |
| ThreadPool.StopReleasesWorkers | thread_pool.cpp:30-36 | after stop() no worker is asleep and none starts more than one further task |
| ThreadPool.WorkersLeave | thread_pool.cpp:37-39 | after stop() each worker exits within three steps of its own |
| ThreadPool.ProducerReturnsAfterStop | thread_pool.cpp:30-40 | after stop() a producer in run() can still return exactly if there is a free slot or a worker is still in take() |
| ThreadPool.StuckForGood | thread_pool.cpp:30-40 | otherwise it is in run() at every later index of every run, and the queue stays as it is |
| ThreadPool.ProducerStrandedByStop | thread_pool.cpp:35 | a run that gets there |
| Latch.LatchOpens | ydx_countdown_lauch.cpp:13-30 | wait() returns only after the initial count of countDown() calls, and from then on nobody sleeps |
| Latch.CallersReturn | ydx_countdown_lauch.cpp:23-30 | the next test of a waiting thread lets it return exactly if the latch is open, and then it can always make it |
| ByteBuffer.Buffer.constructor | buffer.h:20-25 | an empty queue over storage of the given size |
| ByteBuffer.Buffer.Swap | buffer.h:27-32 | contents and storage change places |
| ByteBuffer.Buffer.Retrieve | buffer.h:54-64 | drops a prefix, or everything if asked for as much or more |
| ByteBuffer.Buffer.RetrieveString | buffer.h:66-71 | splits the contents |
| ByteBuffer.Buffer.HasWritten | buffer.h:80-84 | what was written behind the contents joins them |
| ByteBuffer.Buffer.Unwrite | buffer.h:86-90 | drops a suffix |
| ByteBuffer.Buffer.EnsureWriteableBytes | buffer.h:99-105 | room for the request, same contents, storage within max(initial size, 2 * demand - 1) |
| ByteBuffer.Buffer.MakeSpace | buffer.h:147-162 | grows by what is missing, or moves the contents down, and then from a positive index, so the overlapping copy is safe |
| ByteBuffer.Buffer.FillTail | buffer.h:117-122 | bytes copied behind the contents join them |
| ByteBuffer.Buffer.Append | buffer.h:117-122 | appends, within the space bound |
| ByteBuffer.Buffer.Shrink | buffer.h:130-136 | same contents in storage of exactly max(2048, readable + reserve) |
| ByteBuffer.Buffer.ReadFd | buffer.cpp:11-37 | exactly the bytes received are appended in order, spilled or not; an error changes nothing |
| Connection.TcpConnection.NoStuckBytes | tcp_connection.cpp:109-118 | until the connection closes, bytes wait exactly if EPOLLOUT is in the kernel's interest set |
| Connection.StreamConserved | tcp_connection.cpp:80-228 | in every run of sends and flushes: the bytes the kernel took, then those that wait, are all messages in order but those whose direct write met EPIPE or ECONNRESET |
| Connection.TcpConnection.Send | tcp_connection.cpp:80-119 | what each answer of the kernel does to stream and buffer: EPIPE and ECONNRESET on an empty buffer give the message up and change nothing, after all others the rest of it waits |
| Connection.TcpConnection.Queue | tcp_connection.cpp:109-118 | the rest of a message waits in the buffer with writing enabled |
| Connection.TcpConnection.WriteDirectly | tcp_connection.cpp:82-107 | only an empty buffer writes at once; which errors are faults |
| Connection.TcpConnection.HandleWrite | tcp_connection.cpp:208-244 | the kernel takes a prefix of what waits; writing is disabled exactly when nothing is left |
| Connection.TcpConnection.ConnectEstablished | tcp_connection.cpp:163-171 | connected, reported UP and watched for reading, in step with the server's view of it |
| Connection.TcpConnection.HandleClose | tcp_connection.cpp:246-259 | one DOWN callback, no events left, the stream account kept, in step with the server's view of it |
| Connection.TcpConnection.ConnectDestroyed | tcp_connection.cpp:173-183 | gone from poller and kernel; a DOWN callback only if still connected; in step with the server's view of it |
| Connection.TcpConnection.HandleRead | tcp_connection.cpp:185-205 | received bytes reach the input buffer; zero bytes close; an error changes nothing |
| Connection.TcpConnection.ShutdownInLoop | tcp_connection.cpp:132-139 | until the connection closes, half-closed exactly if the kernel has taken every byte |
| Connecting.FirstNotRetriedDecides | connector.cpp:43-84 | errno by errno, how successive attempts decide how many sockets are created and whether the last one is registered |
| Connecting.Connector.Start | connector.cpp:36-41 | one socket for each attempt up to the first whose errno is not retried, all closed but for that one if it proceeds, and then it is registered; a socket is leaked exactly if one was owned before and another is registered |
| Connecting.Connector.Connect | connector.cpp:43-84 | the same for one connect() with all retries that follow |
| Connecting.Connector.ConnectingOn | connector.cpp:86-100 | the socket is owned by a new channel, and the kernel watches it for EPOLLOUT, which ends the connect |
| Connecting.Connector.Stop | connector.cpp:102-111 | the owned socket is closed, nothing is created or handed off, and connect_ is off; if it was not connecting, nothing else changes |
| Connecting.Connector.Restart | connector.cpp:116-124 | as start(), from state kDisconnected |
| Connecting.Connector.Retry | connector.cpp:126-144 | the socket is closed once, and then the effect of start(), or nothing without connect_ |
| Connecting.Connector.RemoveAndResetChannel | connector.cpp:152-160 | the socket leaves the channel and its descriptor is in neither channels_ nor kernel |
| Connecting.Connector.HandleWrite | connector.cpp:163-199 | handed off exactly if it was connecting with connect_ set and without error or self-connect, else closed once and, after an error or self-connect, retried, where the descriptor just closed may come again; no effect in other states |
| Connecting.Connector.HandleError | connector.cpp:201-213 | closed once and retried; no effect in other states |
| Connecting.EverySocketIsAccountedFor | connector.cpp:36-213 | in every run of calls without a start while connecting, each socket created is owned, closed or handed off, and exactly one is owned in state kConnecting, none in the others |
| Connecting.SettledForGood | connector.cpp:126-199 | a socket closed or handed off stays so: each is settled once, in one way |
| Connecting.QuietAfterStop | connector.cpp:102-111 | after stop(), which closes what was owned, and until the next start() or restart() no socket is created, handed off or closed |
| Client.TcpClient.Connect | tcp_client.cpp:56-65 | with neither connection nor attempt under way, the effect of start() without a leak, and connecting exactly if a connect() that proceeds is reached |
| Client.TcpClient.Stop | tcp_client.cpp:67-71 | stops the connector and keeps the invariant of the client, so every later call is covered |
| Client.TcpClient.NewConnection | tcp_client.cpp:86-114 | the descriptor handed over is registered for the new connection without a failed call |
| Client.TcpClient.ConnectorWritable | tcp_client.cpp:26-27 | hand-over end to end: handed off once, then watched for the new connection; after an error or self-connect, closed and retried |
| Client.TcpClient.RemoveConnection | tcp_client.cpp:117-130 | the connection is destroyed, and with retry the connector restarts, with the effect of start() and without a leak |
| ServerLifecycle.StepInv | tcp_server.cpp:62-113 | what every step keeps: queued functors match the phase of their connection and its loop, the map matches the phases |
| ServerLifecycle.Lifecycle | tcp_server.cpp:62-113 | in every run each connection goes up, down and is destroyed, once each in this order; assert and lookup never fail |
| ServerLifecycle.DestructionIsQueued | tcp_server.cpp:98-108 | after its DOWN a connection has its removal or its destruction queued |
| ServerLifecycle.AcceptCreates | tcp_server.cpp:62-86 | an accepted socket becomes a new connection, listed under its name |
| ServerLifecycle.ConnectionsSpread | tcp_server.cpp:65 | connections spread evenly over the IO loops and none lives on the acceptor's loop, unless there are no others |
| ServerLifecycle.ComesUp | tcp_server.cpp:84 | a connection comes up once its loop has run the functors before its own |
| ServerLifecycle.EventCloses | tcp_connection.cpp:185-205 | an event takes a connection down exactly if the peer hung up with nothing to read, or a read it calls for returns 0 |
| ServerLifecycle.IsDestroyed | tcp_server.cpp:93-113 | a connection that is down is destroyed and forgotten once the loops have run the functors before its own |
| ServerLifecycle.ShutdownTakesEffect | tcp_connection.cpp:121-130 | a shutdown() that finds a connection connected leaves it disconnecting and changes nothing else |
| ServerLifecycle.DoubleClose | channel.cpp:38-63 | exactly the events on which the assert in handleClose fails on a live connection |
| ServerLifecycle.SendOnLiveOnly | tcp_connection.cpp:109-118 | a send that enables writing leaves the lifecycle intact in every disciplined continuation exactly if the channel is registered at that moment |
| ServerLifecycle.ConnectedIsRegistered | tcp_connection.cpp:163-183 | state kConnected suffices for that |
| ServerLifecycle.SendAfterClose | tcp_connection.cpp:250 | after such a send without registration, in any state, a hang-up fails the assert at once or after a second send |
| Naming.DecDenotes | tcp_server.cpp:67 | a number is printed as its decimal digits without leading zeros |
| Naming.NameShape | tcp_server.cpp:66-69 | the name holds server, address and id in full, or the first 31 characters after the server name |
| Naming.IpPortLength | socket_ops.cpp:186-195 | an IPv4 host and port take at most 21 characters |
| Naming.NamesDistinct | tcp_server.cpp:66-69 | connection names are pairwise distinct exactly as long as every id fits the buffer |
| Naming.NamesDistinctForIpv4 | tcp_server.cpp:66-69 | ids up to 99,999,999 give distinct names for every IPv4 host and port |
| Placement.EPollerThreadPool.GetNextLoop | epoller_thread_pool.cpp:41-54 | call k gets loop k modulo their number, the base loop if there are none |
| Placement.EPollerThreadPool.GetAllLoops | epoller_thread_pool.cpp:70-80 | never empty |
| Placement.FairPlacement | epoller_thread_pool.cpp:41-54 | after k calls each of n loops was chosen k / n times, one more for the first k % n |

## Left out

- list_del, hlist_del and the poison of ring lists: list_del_init with other final pointers; list_del_rcu and hlist_del_rcu are modelled with their poison.
- The entry forms of the list macros, backward traversal and list_empty_careful: pointer arithmetic around the modelled operations.
- RCU: memory reordering (smp_wmb() is a no-op in the code), freeing after a grace period, and re-adding a removed node.
- EventLoop: which channels are ready, the growth of the event array, the 500 ms timeout (a timeout may happen at any time), and what functors do besides queueing.
- EventLoop.NoStrandedFunctor: for runs whose loop-thread pushes are inside callbacks and functors, or with a wakeup on its way; SafeLoopPush shows that this is needed.
- ThreadPool: run() without any worker, which executes the task itself; tasks that call run() on their own pool; the thread init callback and exceptions; empty task objects.
- ByteBuffer.Buffer.Shrink: the readable length is cast to int, so it is assumed to be below 2^31; sizes do not wrap around.
- Connection: user callbacks, the high-water mark, socket options, send() from other threads, and shared_ptr lifetimes.
- Connection.TcpConnection.ShutdownInLoop: only safety; a shutdown deferred by waiting bytes is never resumed, because that code is commented out.
- Connecting: real delays, a stop() from another thread while retry() sleeps, and the destruction of a channel inside its own callback.  A call that retries forever is represented by its finite parts.
- Connecting.Connector.HandleWrite: error and self-connect are answers of the environment.
- Client: the destructor, disconnect(), and a connect() while connected.
- ServerLifecycle: the server's destructor, messages and buffers (see Connection), accept errors.  Functors of one loop run in queue order, which FunctorsConserved proves of the loop.
- ServerLifecycle.Lifecycle: for runs with sends that enable writing on registered channels only, no read of 0 bytes on EPOLLPRI or EPOLLRDHUP along with EPOLLHUP without EPOLLIN, and ids within the name buffer; DoubleClose, SendOnLiveOnly and NamesDistinct say what happens otherwise.
- Placement: the threads that run the loops.
- Sockets, addresses, acceptor, logging, files, timers, Sender, Receiver and BlockingQueue are not part of this model.
