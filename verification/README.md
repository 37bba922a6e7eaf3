# A verified model of the discovery library's core

The repository is a LAN discovery and request/response library on top of a vendored libuv 1.9.1.
This project models its core logic in Dafny and proves what it promises, over all inputs, all
interleavings and all runs.

| files | what they model |
|---|---|
| `RedBlackImage`, `RedBlackRemoval`, `RedBlackTree`, `RedBlackMeaning` | the red-black tree macros of libuv on linked nodes |
| `HeapOrder`, `TimerHeap`, `LoopTimers` | the pointer-based binary heap, and timers on top of it |
| `Framing` | packages with 18-byte headers, cut from a byte stream and reassembled across reads |
| `GenId`, `ClientCore`, `ClientMeans`, `ClientConns`, `ClientLoop` | the client loop: connection, task and timer tables under racing callbacks |
| `HostConnect` | discovered hosts, the list of pending connects and the connection table together |
| `EndToEnd`, `Delivery` | requests and responses as bytes, from any number of clients through the server's pool and back |
| `UvPool`, `UvOrder`, `UvThreads` | libuv's thread pool with cancellation, the order in which it serves, and its code on ring queues |
| `AsyncWakeup`, `AsyncThreads` | the async wakeup, and its code on ring queues |
| `InetV4`, `InetV6`, `InetForms` | address text conversion (section 2.2 of RFC 4291) |
| `Socks5` | the incremental SOCKS5 parser (sections 3 and 4 of RFC 1928, section 2 of RFC 1929) |
| `RingQueue`, `RoleRings` | the ring queue, and families of them |
| `LinkedQueue`, `WorkPool` | the linked queue and the bounded thread pool over it |
| `Common` | notions that several components share |

Linked structures are classes whose fields the methods change; a ghost value (an image of the
links, a level-order sequence, a ring) says what they hold. Protocols are step machines: one step
per callback, locked region or access to a shared word, in any order; where the code is a loop or
an update of tables, a class beside the machine carries the steps out.

Some properties do not hold of the code as one might expect; each has a concrete witness, or a proof
that the bad case always happens, and the condition under which it does:

- An RW task is posted twice exactly when its write completion reports an error after the task has
  ended (`ClientCore.RwPosted`, `ClientConns.PostedTwice`).
- A run over due timers ends if and only if the clock is below its maximum or no due timer repeats
  (`LoopTimers.RunsOutExactly`, `LoopTimers.NeverRunsOut`).
- The client loop alone keeps one connection per address if and only if no connect completes beside
  an established connection to its address (`HostConnect.OnePerIpExactly`, `HostConnect.RunOnePerIp`,
  `HostConnect.DirectConnectsDuplicate`); `HostChangeReq` rules that out.
- Every connection, job and answer stays with the client its 16-bit server id stands for if and only if
  no id is handed out that is still carried for another client (`EndToEnd.RightExactly`,
  `EndToEnd.RunRight`). So long, every request is given its own answer (`EndToEnd.OwnAnswer`); after
  that, a client can be given the answer to another one's request (`EndToEnd.WrongAnswer`). It takes
  more than 65535 connections (`EndToEnd.MixedNeedsWrap`).
- A request of libuv's pool is in exactly one place throughout if and only if no two cancels of it
  overlap (`UvPool.OnePlaceExactly`, `UvPool.RunOnePlace`). Overlapping ones can make its done
  callback run twice, with all queues whole (`UvPool.CancelledTwice`, `RingQueue.CancelTwice`), and
  can break a queue (`RingQueue.RemoveAgain`, `RingQueue.InsertTwice`).
- An address that is discovered while the pool is full stays pending without a job, and later discoveries
  of it start none; no other step does that (`HostConnect.StuckExactly`).
- A SOCKS5 greeting, user name, password or host name is decoded if and only if it is not empty
  (`Socks5.GreetingDecodes`, `Socks5.CredentialsDecode`, `Socks5.RequestDecodes`).
- A job pushed to the bounded pool after its queue was cleared may stay there for good, and no other
  can (`WorkPool.ExactlyOnceAfterTeardown`, `WorkPool.LateJobStays`).
- The teardown of the bounded pool calls a missing after callback if and only if a queued job has none
  (`WorkPool.TeardownLosesExactly`); `HostChangeReq` and the server push such jobs.

## Model

| member | source | states |
|---|---|---|
| `RedBlackTree.Tree.RotateLeft` | third/libuv/include/tree.h:342-360 | a left rotation on the linked nodes yields the rotated image; root, parent and child links are all accounted for |
| `RedBlackTree.Tree.RotateRight` | third/libuv/include/tree.h:362-381 | the mirror image |
| `RedBlackImage.RotatedShape` | third/libuv/include/tree.h:342-381 | a rotation keeps the search order, the parent links and the in-order sequence of nodes |
| `RedBlackTree.Tree.InsertColor` | third/libuv/include/tree.h:407-449 | from a tree that is red-black except for one red node below a red parent, the loop terminates in a valid red-black tree of the same nodes in the same order |
| `RedBlackImage.FlippedRises` | third/libuv/include/tree.h:415-421 | with a red uncle, recolouring moves the only possible violation up to the grandparent |
| `RedBlackImage.InnerTurned` | third/libuv/include/tree.h:422-427 | rotating an inner grandchild keeps the state of the loop |
| `RedBlackImage.OuterTurned` | third/libuv/include/tree.h:428-430 | recolouring and rotating at the grandparent removes the violation |
| `RedBlackImage.RisenValid` | third/libuv/include/tree.h:448 | once the loop stops, painting the root black gives a valid tree |
| `RedBlackTree.Tree.Insert` | third/libuv/include/tree.h:598-626 | for any node, also one that is in the tree: returns the node that has the key and leaves the tree alone, or adds exactly the given node in key order and returns null; the tree is valid after it |
| `RedBlackImage.AttachedRises` | third/libuv/include/tree.h:613-624 | a new red leaf is the only possible violation |
| `RedBlackTree.Tree.RemoveColor` | third/libuv/include/tree.h:451-528 | from a tree in which one subtree lacks a black node, the loop terminates in a valid tree of the same nodes in the same order |
| `RedBlackRemoval.RedSiblingLifted` | third/libuv/include/tree.h:459-464 | a red sibling is turned into a black one |
| `RedBlackRemoval.LoweredSinks` | third/libuv/include/tree.h:465-471 | with no red nephew the shortage moves up to the parent |
| `RedBlackRemoval.NearLifted` | third/libuv/include/tree.h:473-482 | a red near nephew becomes a red far nephew |
| `RedBlackRemoval.FarLifted` | third/libuv/include/tree.h:483-489 | a red far nephew ends the shortage |
| `RedBlackRemoval.SunkValid` | third/libuv/include/tree.h:526-527 | painting the final node black gives a valid tree |
| `RedBlackTree.Tree.Remove` | third/libuv/include/tree.h:530-595 | removes exactly the given node and keeps the order of the others; the tree is valid after it and the node is returned |
| `RedBlackRemoval.SplicedSinks` | third/libuv/include/tree.h:579-593 | unlinking a black node with at most one child leaves one black node missing at its child |
| `RedBlackRemoval.ReplacedSinks` | third/libuv/include/tree.h:557-570 | the successor that takes over links and colour keeps that state |
| `RedBlackTree.Tree.Find` | third/libuv/include/tree.h:629-644 | the node with the key, or null exactly when no node has it |
| `RedBlackTree.Tree.FindNext` | third/libuv/include/tree.h:647-665 | the first node in order whose key is not smaller |
| `RedBlackTree.Tree.Next` | third/libuv/include/tree.h:668-687 | the in-order successor, or null at the end |
| `RedBlackTree.Tree.MinMax` | third/libuv/include/tree.h:711-724 | the first or the last node in order |
| `RedBlackMeaning.ValidIsRedBlack` | third/libuv/include/tree.h:298-339 | the flat invariant means the textbook one: read as a tree value, in-order keys ascend, no red node is below a red one, and all paths have the same number of black nodes |
| `RedBlackMeaning.DepthIsLogarithmic` | third/libuv/include/tree.h:298-339 | the square of (nodes + 1) bounds two to the depth, so every descent is logarithmic |
| `HeapOrder.PathTo` | third/libuv/src/heap-inl.h:119-124 | the bits collected from the element count, walked lowest first, lead to exactly that level-order slot |
| `TimerHeap.Heap.NodeSwap` | third/libuv/src/heap-inl.h:72-104 | the link swaps exchange exactly two slots of the level order |
| `TimerHeap.Heap.AppendLast` | third/libuv/src/heap-inl.h:115-141 | the new node becomes the last slot of a complete tree |
| `TimerHeap.Heap.Insert` | third/libuv/src/heap-inl.h:106-148 | keeps completeness, order and parent links, and adds exactly the node |
| `TimerHeap.Heap.UnlinkLast` | third/libuv/src/heap-inl.h:181-194 | the node at the end of the path is the last slot, and leaves the tree |
| `TimerHeap.Heap.Replace` | third/libuv/src/heap-inl.h:195-214 | the last node takes over the slot of the removed one |
| `TimerHeap.Heap.SiftDown` | third/libuv/src/heap-inl.h:216-229 | the walk down leaves order violated at most upward |
| `TimerHeap.Heap.SiftUp` | third/libuv/src/heap-inl.h:231-236 | the walk up restores heap order |
| `TimerHeap.Heap.Remove` | third/libuv/src/heap-inl.h:150-237 | removing any node keeps completeness, order and parent links, and removes exactly that node |
| `TimerHeap.Heap.Dequeue` | third/libuv/src/heap-inl.h:239-241 | removes the minimum, nothing from an empty heap |
| `TimerHeap.Heap.MinIsLeast` | third/libuv/src/heap-inl.h:67-69 | no node has an earlier timeout than the root, nor the same one with a smaller start id |
| `LoopTimers.ClampIsDueAt` | third/libuv/src/unix/timer.c:74-76 | the wrap-around test computes the sum, or 2^64-1 if that is less |
| `LoopTimers.RearmedLater` | third/libuv/src/unix/timer.c:106-116 | a repeating timer is due strictly later again if and only if the clock is below its maximum |
| `LoopTimers.Loop.Init` | third/libuv/src/unix/timer.c:54-59 | an inactive timer without callback is added |
| `LoopTimers.Loop.Start` | third/libuv/src/unix/timer.c:62-90 | UV_EINVAL without a callback, else the timer is active, due at the clamped time, with a new start id; nothing else changes |
| `LoopTimers.Loop.Stop` | third/libuv/src/unix/timer.c:93-103 | the timer is inactive and out of the heap; nothing else changes |
| `LoopTimers.Loop.Again` | third/libuv/src/unix/timer.c:106-116 | UV_EINVAL without a callback, restart of a repeating timer, else no change |
| `LoopTimers.Loop.NextTimeout` | third/libuv/src/unix/timer.c:129-147 | -1 without active timers, else the distance to the timeout of an active timer that no active timer precedes, 0 if that is due, cut at INT_MAX |
| `LoopTimers.Loop.RunTimers` | third/libuv/src/unix/timer.c:150-167 | where the run ends, it fires exactly the active timers whose timeout has come, each once, an earlier timeout first and at equal timeouts the one started first; it leaves none due, a one-shot timer inactive, a repeating one due its repeat later, and the others untouched |
| `LoopTimers.RunsOutExactly` | third/libuv/src/unix/timer.c:150-167 | every due repeating timer is re-armed later if and only if the clock is below its maximum or no due timer repeats |
| `LoopTimers.NeverRunsOut` | third/libuv/src/unix/timer.c:150-167 | otherwise a due timer is left after any number of rounds, so the loop does not end |
| `LoopTimers.RanStep` | third/libuv/src/unix/timer.c:155-166 | one round fires the least due timer, which was not fired before |
| `LoopTimers.RanAll` | third/libuv/src/unix/timer.c:150-167 | when no active timer is due, exactly the timers due at the start have fired |
| `Framing.RequireLenExact` | Communication/core/comm_protocol.cpp:32 | the `int` sum is the package size exactly for lengths up to 2^31-1-18 |
| `Framing.PackageAgrees` | Communication/core/comm_protocol.cpp:22-42 | one package at the cursor is one step of the parse of the stream from there: incomplete, out of range, or found with the next cursor |
| `Framing.ParseAll` | Communication/core/comm_core.cpp:284-302 | the loop with its cursor yields the packages and the remainder that the stream function defines |
| `Framing.Tcp.ReadContent` | Communication/core/comm_core.cpp:263-309 | dispatches what parsing cache plus content gives, only packages with magic 0x12345678 and version 1, and keeps the remainder |
| `Framing.Tcp.Store` | Communication/core/comm_core.cpp:304-309 | the cache never exceeds its capacity and holds the remainder |
| `Framing.ParseExtends` | Communication/core/comm_core.cpp:284-302 | more bytes only continue a parse |
| `Framing.ChunkingIndependent` | Communication/core/comm_core.cpp:263-309 | any split of a stream into reads dispatches the same packages and leaves the same cache as one read; bad packages are skipped by their own length |
| `Framing.HeaderLayout` | Communication/core/comm_protocol.cpp:8-19 | the bytes of the packed header: version, magic number, task id, type and length, every integer with its lowest byte first |
| `Framing.HeaderParses` | Communication/core/comm_protocol.cpp:22-60 | a whole package, whatever follows it, is dispatched if and only if it has magic 0x12345678 and version 1; else it is skipped with its data |
| `Framing.HeaderWaits` | Communication/core/comm_protocol.cpp:22-42 | an incomplete package waits for more bytes, unless its length is above 2^31-1-18 |
| `Framing.EveryStream` | Communication/core/comm_protocol.cpp:22-42 | fewer than 18 bytes wait, and any 18 bytes are a header, so the two lemmas before say what becomes of every stream |
| `Framing.BuildParses` | Communication/core/comm_protocol.cpp:8-42 | a built package is parsed back, whatever follows it |
| `Framing.RoundTrip` | Communication/core/comm_protocol.cpp:8-42 | messages built, concatenated and delivered in any fragments come out in order with nothing left over |
| `GenId.GenConnID.ApplyId` | Communication/core/gen_id.cpp:46-58 | the 16-bit counter steps over 0 |
| `GenId.IdsCycle` | Communication/core/gen_id.cpp:46-58 | id number n is n mod 65535 plus 1 |
| `GenId.IdsDistinct` | Communication/core/gen_id.cpp:46-58 | ids are never 0, and two are equal exactly a multiple of 65535 calls apart |
| `ClientCore.TasksKept` | Communication/core/comm_core.cpp:111-136 | every callback in every state keeps the task bookkeeping |
| `ClientMeans.SubmitDoes` | Communication/async/async_task.cpp:28-43 | a submission is a task under a new id, queued and unposted; no other task, table or connection changes |
| `ClientMeans.RequestDoes` | Communication/core/comm_core.cpp:802-842 | a request is written, with its timeout, exactly if the loop runs, its connection is in the table and the write is accepted; else it leaves the tables and is posted; nothing else changes |
| `ClientMeans.ConnectDoes` | Communication/core/comm_core.cpp:601-659 | a connect is dialed on a new handle, with a timer if it has a timeout, exactly if the loop runs, no connection has the address and the request is accepted; else it is posted, and an opened handle closed |
| `ClientMeans.WriteDoes` | Communication/core/comm_core.cpp:191-221 | an error posts the task, which leaves both tables; success starts the timer of a task with a timeout; nothing else changes |
| `ClientMeans.TimeoutDoes` | Communication/core/comm_core.cpp:161-188 | the task leaves both tables, is posted exactly if it was still in the task table, and the handle being dialed is closed; nothing else changes |
| `ClientMeans.ConnectedDoes` | Communication/core/comm_core.cpp:548-598 | the task is posted unless it has left the table; the connection gets the next id, enters the table if that is free and is reported up, or its handle is closed |
| `ClientMeans.ResponseDoes` | Communication/core/comm_core.cpp:317-334 | the task leaves both tables and is posted, exactly if it was in the task table; nothing else changes |
| `ClientMeans.ReadErrorDoes` | Communication/core/comm_core.cpp:405-424 | the connection leaves the table, is closed and reported down once, and exactly its requests are posted |
| `ClientMeans.ClosedDoes` | Communication/core/comm_core.cpp:57-83 | the handle goes; a connection that is still in the table leaves it and is reported down |
| `ClientMeans.ShutdownDoes` | Communication/core/comm_core.cpp:684-737 | the three tables are empty, every task of the table is posted once, and the handles of all connections and of all connects with a timer are closing |
| `ClientCore.SubmitMeans` | Communication/async/async_task.cpp:28-43 | a submission is a new task that waits, unposted; no other task changes |
| `ClientCore.WriteMeans` | Communication/core/comm_core.cpp:191-221 | an error posts the task and takes it out of both tables, success starts the timer of a request with a timeout; no other task changes |
| `ClientCore.TimeoutMeans` | Communication/core/comm_core.cpp:161-188 | the task leaves both tables and is posted exactly if it was still in the task table; no other task changes |
| `ClientCore.ConnectPostedOnce` | Communication/core/comm_core.cpp:548-659 | over all orders of connect callback, timeout, immediate failure, not-ready and shutdown, a CONNECT task is posted exactly once when it has left the tables and not before |
| `ClientCore.RwPosted` | Communication/core/comm_core.cpp:191-221 | an RW task is posted once when it has left the tables, and twice exactly if a failed write completion arrives after its end |
| `ClientCore.TimersBelong` | Communication/core/comm_core.cpp:205-219 | ids in the timer table are ids in the task table, except for timers started by a write completion after the end of the task |
| `ClientCore.ShutdownNotifies` | Communication/core/comm_core.cpp:684-737 | a shutdown empties the three tables and posts every pending task; no later event puts a task or a connection back |
| `ClientConns.SoundKept` | Communication/core/comm_core.cpp:548-598 | every callback keeps the connection bookkeeping |
| `ClientConns.EntriesUnderOwnId` | Communication/core/comm_res.cpp:118-154 | every table entry is an open connection under its own id, which is not 0 |
| `ClientConns.ReportedOnce` | Communication/core/comm_core.cpp:405-417 | a connection is reported up exactly once if it was established and not otherwise; while no id is reused early it is reported down only after that, at most once, and exactly once when it has left the table, until the shutdown |
| `ClientConns.ClashNeedsWrap` | Communication/core/gen_id.cpp:46-58 | an id can only be met in use if its connection has lived through 65535 other ids |
| `ClientConns.CloseUnestablished` | Communication/core/comm_core.cpp:57-83 | closing a connection that was never established removes nothing and reports nothing |
| `ClientConns.PostedTwice` | Communication/core/comm_core.cpp:191-203 | a concrete run in which an RW task is posted twice |
| `ClientLoop.Loop.ConnFind2` | Communication/core/comm_res.cpp:187-210 | finds a connection with the address exactly if there is one |
| `ClientLoop.Loop.TaskDelByConn` | Communication/core/comm_res.cpp:296-322 | removes exactly the RW tasks of the connection and lists each once |
| `ClientLoop.Loop.FinishList` | Communication/core/comm_core.cpp:421-424 | the loop over the listed tasks finishes exactly those, each once |
| `ClientLoop.Loop.FinishEvery` | Communication/core/comm_core.cpp:719-727 | the loop over the task table finishes every task once |
| `ClientLoop.Loop.CloseAll` | Communication/core/comm_core.cpp:700-714 | the two loops close exactly the listed connections and the handles of pending connects |
| `ClientLoop.Loop.AsyncCb` | Communication/core/comm_core.cpp:796-876 | not ready, unknown connection, failed and accepted requests leave exactly the tables and posts of the Async event, for RW and CONNECT |
| `ClientLoop.Loop.DoConnect` | Communication/core/comm_core.cpp:601-659 | an existing connection, a failed initialisation, a failed request and an accepted one leave exactly the state of the CONNECT part of the event |
| `ClientLoop.Loop.ConnectCb` | Communication/core/comm_core.cpp:548-598 | a late completion changes no table; else the timer goes, the connection enters the table under a new id or is closed, and the task is posted: exactly the ConnectDone event |
| `ClientLoop.Loop.ReadErrorCb` | Communication/core/comm_core.cpp:405-424 | the connection leaves the table, is reported down, and each of its RW tasks is posted: exactly the ReadError event |
| `ClientLoop.Loop.ShutdownCb` | Communication/core/comm_core.cpp:684-737 | all connections and timers are closed and every task is posted: exactly the Shutdown event |
| `ClientLoop.Loop.Handle` | Communication/core/comm_core.cpp:46-890 | every event of the state machine is what the callbacks do to the tables |
| `HostConnect.HostChangeReq.AddSvrConn` | bridge/connreq_mgr.cpp:86-114 | an address is queued, and a job wanted, only if it is not pending |
| `HostConnect.HostChangeReq.DelSvrConn` | bridge/connreq_mgr.cpp:116-134 | exactly the entries with the address are erased, all of them |
| `HostConnect.WithoutMeans` | bridge/connreq_mgr.cpp:116-134 | every entry with the address is erased, wherever it is, and the others keep their order |
| `HostConnect.DiscoverDoes` | bridge/connreq_mgr.cpp:86-114 | a new address is pending and, if the pool takes it, has a job; a pending one changes nothing |
| `HostConnect.JobDoes` | bridge/connreq_mgr.cpp:67-83 | a job submits one connect to its address, with a timeout of 1000, and waits for it |
| `HostConnect.EndDoes` | bridge/connreq_mgr.cpp:67-83 | a job that ends takes exactly its address out of the list |
| `HostConnect.StuckExactly` | bridge/connreq_mgr.cpp:86-114 | a step leaves every pending address with a job that works on it if and only if it is not the discovery of a new address whose job the pool refuses |
| `HostConnect.EventIps` | Communication/core/comm_core.cpp:548-659 | every client event other than a submission keeps one connection per address if at most one connect per address is pending |
| `HostConnect.OneConnectionPerAddress` | bridge/connreq_mgr.cpp:67-134 | in every run in which connects go through HostChangeReq, two table entries with the same address are the same |
| `HostConnect.DirectConnectsDuplicate` | Communication/core/comm_core.cpp:607-612 | a concrete run of the client loop alone that ends with two connections to one address |
| `HostConnect.OnePerIpExactly` | Communication/core/comm_core.cpp:548-659 | an event keeps one connection per address if and only if it is not a connect that completes, under a free id, beside an established connection to its address |
| `HostConnect.RunOnePerIp` | Communication/core/comm_core.cpp:548-659 | a run of the client loop alone has one connection per address throughout if and only if no such connect completes in it |
| `EndToEnd.PrefixParses` | Communication/core/comm_core.cpp:263-309 | of a stream of packages cut anywhere, exactly the complete ones come out and the rest stays |
| `Delivery.ReadDispatches` | Communication/core/comm_core.cpp:336-369 | of the bytes read by the server exactly the first m requests are complete, all of them if all bytes have arrived; each becomes a job with its id and data for the asking client, in order, if the table has the connection, and none does otherwise |
| `Delivery.ReadAnswers` | Communication/core/comm_core.cpp:312-335 | of the bytes read by the client exactly the first m messages are complete; a pending request is completed by the first of them that answers it, and no other changes |
| `Delivery.SendAsks` | Communication/core/comm_core.cpp:825-842 | a request joins the stream of its connection under an id that its client has not used |
| `Delivery.WorkHandles` | Communication/core/comm_core.cpp:21-43 | a job leaves the pool with the handler's output for its own data |
| `Delivery.ReplySends` | Communication/core/comm_core.cpp:843-860 | an answer joins the stream of the connection that has its id, if there is one and the write is accepted, and no other stream |
| `Delivery.OpenConnects` | Communication/core/comm_core.cpp:481-482 | a connection gets the next id and enters the table, if the table does not have the id |
| `Delivery.NothingLost` | Communication/core/comm_core.cpp:312-369 | as long as no connection is lost, no write fails, no request is given up and no id is taken, every request is in a stream, a job or an answer, or has its answer |
| `Delivery.AllAnswered` | Communication/core/comm_core.cpp:312-369 | so once streams and pool are empty, every request has the handler's output for its own input |
| `EndToEnd.StepKeeps` | Communication/core/comm_core.cpp:21-43 | every step keeps each byte and job tied to its request, and each answer to the asking client as long as ids stand for their clients |
| `EndToEnd.RightExactly` | Communication/core/comm_core.cpp:481-482 | a step keeps every connection, job and answer with the client its id stands for if and only if it does not hand out an id that is carried for another client |
| `EndToEnd.RunRight` | Communication/core/comm_core.cpp:481-482 | the same throughout a run if and only if no step of it does |
| `EndToEnd.OwnAnswer` | Communication/core/comm_core.cpp:312-369 | over any interleaving of clients, connections, fragments and pool orders, while no 16-bit server id is handed out that a connection, a job or an answer of another client still carries, a request that completes without error carries the handler's output for its own input |
| `EndToEnd.MixedNeedsWrap` | Communication/core/comm_core.cpp:481-482 | with up to 65535 connections no id is handed out that is carried for another client |
| `EndToEnd.WrongAnswer` | Communication/core/comm_core.cpp:843-860 | a concrete run in which, after a whole cycle of ids with a job waiting, a client is given the answer to a request of another one |
| `EndToEnd.NeverOverruns` | Communication/core/comm_core.cpp:276-302 | in no run does a read meet a length that is out of range |
| `UvPool.StepKeeps` | third/libuv/src/threadpool.c:64-238 | every locked region of workers, submitters, cancellers and loops keeps each work in one place with matching fields, unless a cancel passes its test while another of the same request is between its locked regions |
| `UvPool.ExactlyOnePlace` | third/libuv/src/threadpool.c:64-238 | in every run without overlapping cancels each work is in exactly one place: one entry of one queue, one worker, one cancellation under way, or one report |
| `UvPool.OnePlaceExactly` | third/libuv/src/threadpool.c:195-212 | a cancel leaves its work in one place if and only if no other cancel of it is between its locked regions; there it always passes its test |
| `UvPool.RunOnePlace` | third/libuv/src/threadpool.c:64-238 | a run has every work in exactly one place throughout if and only if no two cancels of one request overlap in it |
| `UvPool.CancelledTwice` | third/libuv/src/threadpool.c:192-238 | a concrete run with two overlapping cancels in which the done callback runs twice, both times with UV_ECANCELED |
| `UvPool.DoneOnce` | third/libuv/src/threadpool.c:192-238 | in every run without overlapping cancels the done callback runs at most once; it reports UV_ECANCELED exactly if a cancel succeeded, and then the work function never ran |
| `UvPool.CancellableWhen` | third/libuv/src/threadpool.c:195-203 | in every run without overlapping cancels the test of a cancel holds exactly while the work is queued for a worker or has been cancelled already |
| `UvOrder.FirstComeFirstServed` | third/libuv/src/threadpool.c:64-238 | a worker takes a request only after every request submitted before it has been taken or cancelled |
| `UvOrder.ReportedOnOwnLoop` | third/libuv/src/threadpool.c:180-238 | a request is reported by a pass of the loop it was submitted for |
| `UvOrder.ExitStays` | third/libuv/src/threadpool.c:79-92 | the exit message stays in the queue for the other workers, and a worker that has left stays out |
| `UvOrder.RestReported` | third/libuv/src/threadpool.c:64-238 | once nothing waits for a worker, a canceller or a loop, every request has been reported exactly once |
| `UvOrder.CancelDoes` | third/libuv/src/threadpool.c:195-206 | a cancel that passes its test takes exactly its work out of whatever queue holds it; one that does not changes nothing |
| `UvOrder.WorkerDoes` | third/libuv/src/threadpool.c:79-95 | a worker takes the first request, which is then linked no more, and runs it once |
| `UvOrder.PostsLast` | third/libuv/src/threadpool.c:97-102 | a work that has run or was cancelled joins the queue of its own loop at the tail |
| `UvOrder.MoveTakes` | third/libuv/src/threadpool.c:225-228 | a pass takes over the whole queue of its loop, in order, and no other |
| `UvOrder.FireReports` | third/libuv/src/threadpool.c:230-237 | the first work of the pass is reported, once, with UV_ECANCELED exactly if a cancel succeeded |
| `UvPool.IdsKnown` | third/libuv/src/threadpool.c:64-238 | in every run, with overlapping cancels as well, no thread or loop is ever at a step that cannot be taken |
| `UvPool.DrainedReports` | third/libuv/src/threadpool.c:218-238 | a pass reports every work that was in the loop's queue, and nothing else |
| `UvThreads.CancelRoles` | third/libuv/src/threadpool.c:198-200 | a cancel cuts exactly the node of its request out of the queue that holds it |
| `UvThreads.Threadpool.WorkSubmit` | third/libuv/src/threadpool.c:180-189 | QUEUE_INSERT_TAIL on the global ring is exactly the Submit step |
| `UvThreads.Threadpool.WorkerTake` | third/libuv/src/threadpool.c:79-89 | QUEUE_HEAD, QUEUE_REMOVE and QUEUE_INIT on the rings are exactly the Take step; after it QUEUE_EMPTY holds of the node |
| `UvThreads.Threadpool.WorkerPost` | third/libuv/src/threadpool.c:97-102 | QUEUE_INSERT_TAIL on the ring of the loop is exactly the Finish step |
| `UvThreads.Threadpool.WorkCancel` | third/libuv/src/threadpool.c:195-206 | QUEUE_EMPTY of the node, in whatever queue or none, and w->work decide as the pool says; QUEUE_REMOVE is exactly the Cancel step and leaves the node's own links |
| `UvThreads.Threadpool.WorkCancelled` | third/libuv/src/threadpool.c:208-212 | QUEUE_INSERT_TAIL of the node with its old links is exactly the CancelEnds step |
| `UvThreads.Threadpool.FireFirst` | third/libuv/src/threadpool.c:230-236 | QUEUE_HEAD and QUEUE_REMOVE on the local ring are exactly the Fire step, and the status read from w->work is the one reported; the done callback may then call any method |
| `UvThreads.Threadpool.WorkDone` | third/libuv/src/threadpool.c:218-238 | QUEUE_MOVE, then QUEUE_HEAD and QUEUE_REMOVE until QUEUE_EMPTY, are exactly a whole pass, whose effect DrainedReports states |
| `AsyncWakeup.StepKeeps` | third/libuv/src/unix/async.c:42-178 | every access to a pending mark or the descriptor keeps the invariant |
| `AsyncWakeup.NoLostWakeup` | third/libuv/src/unix/async.c:60-178 | an open handle that is pending has a sender before its write, a readable descriptor, or a pass that has not visited it |
| `AsyncWakeup.CallsWithinSends` | third/libuv/src/unix/async.c:60-178 | callbacks, and a mark still set, never outnumber sends |
| `AsyncWakeup.SendsAreServed` | third/libuv/src/unix/async.c:60-178 | once the loop polls an unreadable descriptor and no sender is about to write, every returned send has been followed by a callback |
| `AsyncWakeup.EventfdReadable` | third/libuv/src/unix/async.c:133-140 | the assertion on the bytes read holds |
| `AsyncWakeup.OpenHandlesQueued` | third/libuv/src/unix/async.c:42-100 | in every run each open handle is in exactly one of the two queues, once, and no closed one is in any |
| `AsyncWakeup.ClosedNotCalled` | third/libuv/src/unix/async.c:72-100 | a handle that was closed outside its own callback is never called back again, whatever sends are under way |
| `AsyncWakeup.SenderDoes` | third/libuv/src/unix/async.c:60-69 | a sender that finds the mark set returns at once; else it sets it and writes, which adds a token unless the descriptor is full |
| `AsyncWakeup.OpenDoes` | third/libuv/src/unix/async.c:42-57 | a new handle is open, not pending and last in the queue |
| `AsyncWakeup.PassedTakes` | third/libuv/src/unix/async.c:78-100 | a pass takes every mark, calls back once for each and keeps the ring in order |
| `AsyncThreads.AsyncLoop.AsyncInit` | third/libuv/src/unix/async.c:42-57 | QUEUE_INSERT_TAIL on the ring of handles is exactly the Open step: the handle is not pending; invariant kept |
| `AsyncThreads.AsyncLoop.AsyncSend` | third/libuv/src/unix/async.c:60-69 | a pending handle is left alone, else it is marked and a token is written: the uninterrupted steps of a send; invariant kept |
| `AsyncThreads.AsyncLoop.AsyncClose` | third/libuv/src/unix/async.c:72-75 | QUEUE_REMOVE takes the node out of whichever ring holds it: exactly the Close step; invariant kept |
| `AsyncThreads.AsyncLoop.AsyncIo` | third/libuv/src/unix/async.c:103-131 | the read loop ends with the descriptor drained and nothing else changed |
| `AsyncThreads.AsyncLoop.VisitFirst` | third/libuv/src/unix/async.c:87-98 | QUEUE_HEAD, QUEUE_REMOVE, QUEUE_INSERT_TAIL and the swap of the mark are exactly the Visit step; a callback is due exactly if the mark was set and there is one, and it may then call any method |
| `AsyncThreads.AsyncLoop.AsyncEvent` | third/libuv/src/unix/async.c:78-100 | QUEUE_MOVE, then QUEUE_HEAD, QUEUE_REMOVE and QUEUE_INSERT_TAIL until QUEUE_EMPTY, are exactly a whole pass, whose effect PassedTakes states |
| `InetV4.Ntop4` | third/libuv/src/inet.c:53-65 | UV_ENOSPC exactly if the text does not fit, which 16 bytes always do; what is printed is read back to the address |
| `InetV4.Pton4` | third/libuv/src/inet.c:186-222 | the loop computes the text function |
| `InetV4.AcceptsExactlyPrinted` | third/libuv/src/inet.c:53-222 | a text of any length is accepted for an address if and only if it is what inet_ntop4 prints for it |
| `InetV4.DecimalMeans` | third/libuv/src/inet.c:53-65 | a printed number has its value in decimal digits and no leading zero |
| `InetV6.FillWords` | third/libuv/src/inet.c:86-88 | the bytes become the eight groups |
| `InetV6.FindRun` | third/libuv/src/inet.c:89-112 | the run found is the first of the longest runs of at least two zero groups, or none exists |
| `InetV6.Format` | third/libuv/src/inet.c:117-145 | the text of the address, which with its terminator fits the buffer |
| `InetV6.Ntop6` | third/libuv/src/inet.c:68-154 | UV_ENOSPC exactly if text and terminator do not fit; a printed text is read back to the address |
| `InetV6.ShiftUp` | third/libuv/src/inet.c:289-305 | the in-place shift moves the bytes after the double colon to the end, with zeros between |
| `InetV6.Pton6` | third/libuv/src/inet.c:225-309 | the loop computes the text function |
| `InetForms.PrintsExactly` | third/libuv/src/inet.c:117-145 | what is printed: ::ffff:a.b.c.d and ::a.b.c.d exactly for the addresses of these two kinds, and else the eight groups with the first of the longest runs of zero groups shortened |
| `InetForms.HexMeans` | third/libuv/src/inet.c:117-145 | a printed group has its value in lower-case hexadecimal digits and no leading zero |
| `InetForms.HexValueExactly` | third/libuv/src/inet.c:246-249 | the scanner finds the position of a character in "0123456789abcdef" or "0123456789ABCDEF", and -1 exactly for the characters in neither |
| `InetForms.AcceptsExactlyForms` | third/libuv/src/inet.c:225-309 | a text of any length is accepted for an address if and only if it has one of the forms of section 2.2 of RFC 4291 with that meaning: groups of one to four digits in either case, at most one double colon that stands for at least one group, and a dotted IPv4 address as the last piece |
| `InetV6.Text6Parses` | third/libuv/src/inet.c:68-309 | inet_pton6 inverts every text of a 16-byte address, with zero runs shortened and IPv4 embedded |
| `Socks5.ChunkIndependent` | third/libuv/samples/socks5-proxy/s5.c:53-239 | parsing a then b is parsing a followed by b: same result, same fields, same byte |
| `Socks5.ParseLeaves` | third/libuv/samples/socks5-proxy/s5.c:53-239 | what is left is a tail of the data, and nothing after s5_ok |
| `Socks5.FeedIsParse` | third/libuv/samples/socks5-proxy/s5.c:53-239 | the same for any number of chunks |
| `Socks5.Step` | third/libuv/samples/socks5-proxy/s5.c:64-231 | every byte keeps all buffer indices within bounds |
| `Socks5.GreetingDecodes` | third/libuv/samples/socks5-proxy/s5.c:68-102 | a greeting is recognised at its last byte, with no authentication, GSSAPI and password offered exactly by the bytes 0, 1 and 2, if and only if it names a method |
| `Socks5.RejectsExactly` | third/libuv/samples/socks5-proxy/s5.c:64-190 | a byte is rejected, with the parsed fields unchanged, if and only if it is a version other than 5, a sub-negotiation version other than 1, a command other than 1 and 3, or an address type other than 1, 3 and 4 |
| `Socks5.DeadSwallows` | third/libuv/samples/socks5-proxy/s5.c:226-231 | after the request every byte is swallowed |
| `Socks5.CredentialsDecode` | third/libuv/samples/socks5-proxy/s5.c:104-146 | user name and password are recognised at their last byte and stored with terminators if and only if neither is empty |
| `Socks5.RequestDecodes` | third/libuv/samples/socks5-proxy/s5.c:148-224 | a CONNECT or UDP ASSOCIATE request is decoded, with s5_exec_cmd at its last byte, if and only if its address is not empty |
| `Socks5.EmptyAddressed` | third/libuv/samples/socks5-proxy/s5.c:199-218 | the byte after an empty address is swallowed |
| `Socks5.PasswordSession` | third/libuv/samples/socks5-proxy/s5.c:48-261 | a whole session in any chunks is decoded |
| `Socks5.SelectAuth` | third/libuv/samples/socks5-proxy/s5.c:245-261 | no authentication leads to the request, a password to its version, and -EINVAL comes exactly for other methods, without change |
| `Socks5.Parser.Eat` | third/libuv/samples/socks5-proxy/s5.c:64-231 | one byte on the buffers is one step |
| `Socks5.Parser.ParseData` | third/libuv/samples/socks5-proxy/s5.c:53-239 | the loop on the buffers computes the parse |
| `Socks5.Parser.Select` | third/libuv/samples/socks5-proxy/s5.c:245-261 | the phase is that of the method, or -EINVAL and no change |
| `RingQueue.Init` | third/libuv/src/queue.h:45-50 | a ring of the head alone |
| `RingQueue.Empty` | third/libuv/src/queue.h:39-40 | of a head, exactly the ring without elements; of any node, whether it is its own successor |
| `RingQueue.Elements` | third/libuv/src/queue.h:36-37 | the iteration visits the elements in order |
| `RingQueue.Add` | third/libuv/src/queue.h:52-59 | the elements of the second queue follow those of the first, also when one is empty |
| `RingQueue.Split` | third/libuv/src/queue.h:61-70 | cuts at the given node into two rings |
| `RingQueue.Move` | third/libuv/src/queue.h:72-81 | the source is empty and the target has its elements in order |
| `RingQueue.InsertHead` | third/libuv/src/queue.h:83-90 | the node is the first element |
| `RingQueue.InsertTail` | third/libuv/src/queue.h:92-99 | the node is the last element |
| `RingQueue.Remove` | third/libuv/src/queue.h:101-106 | only that node is gone; its own links stay |
| `RingQueue.AloneInRing` | third/libuv/src/queue.h:39-40 | an element of a ring never passes QUEUE_EMPTY |
| `RingQueue.InsertTwice` | third/libuv/src/queue.h:92-99 | a node inserted twice into any queue follows itself, and the queue is no ring any more |
| `RingQueue.RemoveAgain` | third/libuv/src/queue.h:101-106 | removing by the links of an earlier removal leaves a queue a ring if and only if those of the old neighbours that are in it still have the old link |
| `RingQueue.CancelTwice` | third/libuv/src/threadpool.c:192-238 | two overlapping cancels on any queues, with a pass of uv__work_done between their second locked regions: both pass the test, every queue stays a ring, and the node is reported twice |
| `RingQueue.Enqueue` | third/libuv/src/queue.h:92-99 | among several rings without common nodes, only the one grows, and QUEUE_EMPTY of no other node changes |
| `RingQueue.Dequeue` | third/libuv/src/queue.h:101-106 | among several rings, only the one shrinks, and QUEUE_EMPTY of no node changes |
| `RingQueue.Transfer` | third/libuv/src/queue.h:72-81 | among several rings, one is emptied into another, in order |
| `RingQueue.SameElements` | third/libuv/src/queue.h:24-27 | a head has one sequence of elements: the ring is a single cycle |
| `LinkedQueue.EasyQueue.constructor` | third/queue/Gqueue.c:31-47 | an empty queue with its head node |
| `LinkedQueue.EasyQueue.Push` | third/queue/Gqueue.c:49-64 | the block is the last one |
| `LinkedQueue.EasyQueue.Pop` | third/queue/Gqueue.c:66-101 | -1 on an empty queue or a missing or short buffer, with the length needed, and no change; else the first block leaves |
| `LinkedQueue.EasyQueue.Clear` | third/queue/Gqueue.c:103-128 | empties the queue, handing out the blocks from the last to the first |
| `LinkedQueue.EasyQueue.Size` | third/queue/Gqueue.c:141-144 | the number of blocks |
| `WorkPool.StepKeeps` | third/threadpool/threadpool.c:39-165 | every locked region keeps each job in one place |
| `WorkPool.AtMostOnce` | third/threadpool/threadpool.c:39-165 | the queue holds at most 65 jobs; a job is run or dropped at most once in all, and its after callback is called at most once, after that |
| `WorkPool.ExactlyOnceAfterTeardown` | third/threadpool/threadpool.c:142-183 | after the teardown every job has been run or dropped once and its after callback called once, except jobs pushed after the queue was cleared and still in it |
| `WorkPool.ExactlyOnceUnlessLate` | third/threadpool/threadpool.c:142-183 | without such late pushes every accepted job has been run or dropped exactly once, and its after callback called |
| `WorkPool.LateJobStays` | third/threadpool/threadpool.c:117-139 | a concrete run that is torn down with a late job neither run nor dropped |
| `WorkPool.TeardownLosesExactly` | third/threadpool/threadpool.c:39-47 | the teardown calls a missing after callback if and only if a queued job has none |
| `WorkPool.FirstComeFirstServed` | third/threadpool/threadpool.c:39-165 | until the teardown a job leaves the queue only after every job accepted before it |
| `WorkPool.PushDoes` | third/threadpool/threadpool.c:117-139 | a job is accepted, last in the queue, exactly if at most 64 jobs wait; else nothing changes |
| `WorkPool.TakeDoes` | third/threadpool/threadpool.c:65-77 | the first job of the queue goes to the worker |
| `WorkPool.WorkerDoes` | third/threadpool/threadpool.c:58-86 | a worker leaves exactly if the teardown has begun, runs the job it holds once, and calls back exactly a job with an after callback |
| `WorkPool.ClearDoes` | third/threadpool/threadpool.c:142-165 | the teardown drops and calls back every queued job from the last one, once each; or exactly those behind the last job without an after callback, at which it ends |
| `WorkPool.Threadpool.PushWork` | third/threadpool/threadpool.c:117-139 | -1 exactly if more than 64 jobs wait, else the job is queued |
| `WorkPool.Threadpool.TakeWork` | third/threadpool/threadpool.c:65-77 | the first job leaves the linked queue, or the worker goes back to its test: exactly the Take step, invariant kept |
| `WorkPool.Threadpool.CancelAll` | third/threadpool/threadpool.c:142-165 | from the tail, every queued job is dropped with its after callback called, up to a job that has none: exactly the PostExit and Clear steps |

## Left out

- Framing.PackageAgrees: a header length above 2^31-1-18 ends the parse in an outcome of its own; the cursor that the wrapped `int` sum moves to, and what is read from there, are not modelled.
- LoopTimers.Loop.RunTimers: requires that the run ends (`RunsOutExactly` says when; otherwise it never does), that callbacks start and stop no timers, and fewer than 2^32-1 timers.
- TimerHeap.Heap.Insert: the 32-bit element count does not wrap.
- UvThreads.Threadpool.WorkCancel: requires that no other cancel of the request is between its locked regions; `UvPool.CancelledTwice`, `RingQueue.RemoveAgain`, `RingQueue.CancelTwice` and `RingQueue.InsertTwice` say what happens then.
- After overlapping cancels the queues of `UvPool` are those of the code as long as the second QUEUE_REMOVE finds the old neighbours linked and no node is linked while it is in a queue; what the code does with a broken ring is not modelled.
- UvThreads.Threadpool.WorkDone: the done callbacks leave the pool alone in this method; `UvThreads.Threadpool.FireFirst` and the step machine cover callbacks that submit or cancel.
- AsyncThreads.AsyncLoop.AsyncSend: the method runs without interruption; the step machine covers all interleavings.
- AsyncThreads.AsyncLoop.AsyncEvent: the callbacks change neither handles nor queues in this method; `AsyncThreads.AsyncLoop.VisitFirst` and the step machine cover those that do.
- EndToEnd.OwnAnswer: task ids do not wrap at 64 bits.
- The client's callback for pushed messages: a pushed message is delivered like any other and completes no request.
- The address-of-slot slip in Communication/core/comm_core.cpp:422 is modelled by its intent: each task of a lost connection is finished.
- The retry loop in Communication/core/comm_core.cpp:253-256 does not look at later results; the model takes the push as accepted.
- The 64-bit start ids of timers do not wrap.
- Keys of the red-black tree are integers; RB_PREV, which mirrors RB_NEXT, and RB_AUGMENT, which is empty, are not modelled.
- The `%zone` suffix that uv_inet_pton cuts off before inet_pton6, and the dispatch on the address family.
- The bits of the SOCKS5 method mask are a set; error texts are not modelled.
- The order in which a map hands out its entries.
- Shutdown of the server loop, and the waits of 500 and 800 ms in shutdowns.
- The task id of a pushed message, which the code leaves unset, is arbitrary, as is the id of a server connection that finds its id taken.
- UDP broadcast, socket creation, network card selection and system information: I/O with little state.
- bridge/boardcast_cache.cpp: marked deprecated by its header.
- Splay trees: not used by this code.
- libuv's polling backends, files, processes, signals and address enumeration: system calls.
- Memory release, mutexes, conditions and semaphores, and the liveness of waking and joining threads: locked regions are atomic steps, and safety is proved.
