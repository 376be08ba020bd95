# Verified model of the asynchronous network frameworks

The repository holds a family of small asynchronous network frameworks (`aanf`,
`c_nf`, `cppnf`, `nf`, `zxbnf`). This project models their algorithmic core in Dafny
and proves what that core is for:

- **Block allocator** (`MemPool.dfy`): chunks are carved on demand into blocks of whole
  steps; returned blocks go to recycle lists by size. Over every run each byte of each
  chunk has exactly one owner, among held blocks, recycled blocks and untouched tails.
- **Client connection pool** (`ClientPool.dfy`): a transition system over connections,
  endpoint lists, pending operations and requests on the wire. Completions come in any
  order, may fail, and callbacks may send again.
- **Fan-out and fan-in** (`FanOut.dfy`): clients, front end, two backends and lossy
  in-flight packets. Answers are right, at most one per number, and every run ends.
  `Service.dfy` puts the front end on top of the pool: there, that a reply comes at most
  once is a consequence of the pool's invariant.
- **Partial-write send queues** (`SendQueue.dfy` is the specification; `OffsetQueue.dfy`,
  `NodeQueue.dfy` and `ChainQueue.dfy` hold five implementations over lists, linked nodes
  and chains of buffers). `SideBySide.dfy` shows that all follow one specification, hence
  one another; `ChainRun.dfy` drives a connection through whole runs; `OffsetAsWritten.dfy`
  says when the two queues with one offset are right as written.
- **Incremental decoders** (`LvDecoder.dfy`, `LineDecoder.dfy`, `HttpHead.dfy`): the
  result does not depend on how the stream is chopped into reads; parsing undoes printing.
- **Worker dispatch** (`Dispatch.dfy`): threads, locks, condition variables with lost
  signals and spurious wakeups, and an unlocked scan of the queue sizes.
- **Intrusive structures** (`Links.dfy`, `HashTable.dfy`, `Recency.dfy`): lists linked both
  ways in the heap, a hash table that refines a map of stacks, and a recency list whose
  early-stopping sweep refines a filter over all sockets.

`Common.dfy` has the shared types and sequence facts. Where the source changes state in
place, a class has the same fields and methods, and each method is proved against a
function or a transition of the specification; the theorems are about the latter.

System calls, completions, clocks and random numbers are parameters: any chunk, any
partial count, any completion order, any interleaving. Messages, values and endpoints
are opaque.

## Readings

Parts of the source do not compile or contradict their own comments. The model follows
the stated intent in these places. Where a lemma is named, it says when the code as
written is right, or what it does instead; the other entries carry no lemma.

- memblock.cc:157-164: the loop meant to find the most requested multiple ends at the list
  length; the comment at line 155 is followed. The histogram is one counter per multiple.
- memblock.cc:180: carved pieces go to the list of their own size. `MemPool.MisfiledIff` says when
  the list of the requested size is that one, and `MemPool.MisfiledOccurs` is a pool on which it is not.
- memblock.cc:76 and 96 refuse to enlarge while bytes are left, against the return-code
  table of memblock.h; see `MemPool.RetryAsWrittenIff` and `MemPool.GuardSticks`.
- memblock.cc:197-208 does not test the next chunk; chunks must hold one block of the
  largest size. `MemPool.FreshInsideIff` is the exact condition without that rule, and
  `MemPool.FreshOutside` a pool on which it fails.
- Histogram and recycle lists have one slot for every multiple up to the largest;
  `free_item_pos_` and `free_start_pos_` start at 0.
- skeleton.hpp:1242-1246 leaves the connection after a failed write; the model closes it as
  line 980-986 does. `ClientPool.OneOperationAsWrittenIff`, `ClientPool.LeakOccurs` and
  `ClientPool.LeakedForever` say what the code as written does.
- skeleton.hpp:448 and 846 insert a connection twice; the model does too.
- skeleton.hpp:397-431 starts a last write on an idle connection without marking it as in use. The
  model does the same; `ClientPool.OneOperationIff` says when a run stays right nevertheless. Without an
  idle connection, line 410 reads through null for its message; the model returns -1 and changes nothing.
- A callback is never cleared: a request without one gets its reply through the callback
  left over on the connection (`ClientPool.ReplyGoesToChosen`, `ClientPool.StaleCallback`).
- cb_lv_bf.cc:84-90 does not initialise the sum; it starts at 0. cb_lv_bf.cc:202-253 does not
  stop at a wrong packet type; see `FanOut.CallBack2AsWrittenIff`, `FanOut.AtMostOneAsWrittenIff` and
  `FanOut.SecondAnswerOccurs`.
- c_nf/process.c:134-147: the length subtracted is that of the node freed, and the loop stops
  once nothing is left. As written the loop never ends well: `NodeQueue.NeverReturnsAsWritten`.
- tcp_socket.cc:237-239 ignores the front offset that socket.h documents, 271 overwrites it,
  and the bound at 262 is `< cnt`. `OffsetAsWritten.EvAsWrittenIff` and, over
  runs, `OffsetAsWritten.EvRunAsWrittenIff` have all three as written.
- nf/socket.hpp:125, 150 and 156: the front message counts without its sent part, and the
  offset is advanced and reset. `OffsetAsWritten.AsWrittenIff` and, over runs,
  `OffsetAsWritten.RunAsWrittenIff` have gather and accounting as written.
- zxbnf: the cursor starts at the first buffer, an entry's length is tail minus head, and
  the gather loops advance both iterators and stop when the entries are full. A message
  that is all sent leaves the list, so the one in front is the one the loop looks at.
- bin_tcp_socket.cc: the count of length bytes is reset when a packet is handed over. A
  length of 4 stalls the decoder (its read of 0 bytes never completes the packet). A length of 0 or over
  the largest block gets no block, and the source goes on through null. For a length of 1 to 3 the
  block is granted, the unsigned length of the second read (line 76) wraps, and the source reads past
  its block. The model stops there in all these cases; `LvDecoder.RoundTripIff` states the consequence.
- line_tcp_socket.cc:72-100: the scan starts at the last byte read, includes the first new one,
  and the bytes behind the newline are kept.
- skeleton.hpp:1176: the buffer handed on has head plus content length. The length line has no
  colon, unlike section 3.3.2 of RFC 7230; the code's grammar is modelled.
- c_nf/hash.c: items have a `prev` field, a miss returns null, an item in an empty bucket has no
  successor, and heads start null. `hash_put` returns -1 while the key space is *not* yet used
  up, and deleting does not lower the count; both are kept. `memcmp` runs over the length of the
  key looked for, so a stored key may be longer: `HashSpec.MapOfStacksIff` is the exact condition.
- c_nf/io_service.c: the old head and the successor get their `prev`, the last socket kept gets
  no successor, and sockets are destroyed in one pass (lines 101-106 would destroy the kept ones).

## Model

| member | source | states |
|---|---|---|
| MemPool.RoundUpIsLeast | aanf/libevent-based/src/memblock.cc:84-88 | rounding up gives a multiple of the step that covers the size, and no smaller multiple does |
| MemPool.ArgMax | aanf/libevent-based/src/memblock.cc:155-164 | the result is a position of the histogram at which no other one is exceeded |
| MemPool.RemainderModStep | aanf/libevent-based/src/memblock.cc:168-193 | what carving leaves is a whole number of steps and no more than the carved size |
| MemPool.CarveSizes | aanf/libevent-based/src/memblock.cc:140-193 | after the request was counted the most requested multiple is at least 1, and the remainder of the tail is in steps, has a list, and is 0 only for an empty tail |
| MemPool.CarveConserves | aanf/libevent-based/src/memblock.cc:168-179 | pieces and remainder together hold every byte of the tail, for any weighting of bytes |
| MemPool.CutTailConserves | aanf/libevent-based/src/memblock.cc:165-199 | filing a tail moves each of its bytes to the recycle lists and loses none |
| MemPool.CarveTailKeepsInv | aanf/libevent-based/src/memblock.cc:155-200 | after a tail was carved every recycle list still holds only blocks of its own size, and the byte count is right |
| MemPool.GetResults | aanf/libevent-based/src/memblock.cc:118-217 | -1 exactly for sizes out of range, 0 exactly with a block of the rounded size, -2 exactly without a recycled block of the size and in the last chunk with too small a tail |
| MemPool.RecycledFirst | aanf/libevent-based/src/memblock.cc:142-213 | a recycled block of the size is served before any chunk is cut, the front one of its list, and the chunks stay as they are |
| MemPool.FreshPosition | aanf/libevent-based/src/memblock.cc:145-208 | a block not taken from a recycle list starts at the free position if it fits there, else at the start of the next chunk |
| MemPool.FreshInsideIff | aanf/libevent-based/src/memblock.cc:197-208 | with chunks of any size a fresh block lies inside its chunk exactly when the chunk it is taken from has room |
| MemPool.GetConserves | aanf/libevent-based/src/memblock.cc:118-217 | a request moves bytes from the pool to the block handed out; nothing is lost or doubled, and the invariant holds |
| MemPool.ReturnConserves | aanf/libevent-based/src/memblock.cc:219-228 | a returned block's bytes are the pool's again, in the list of its size |
| MemPool.EnlargeConserves | aanf/libevent-based/src/memblock.cc:73-115 | enlarging adds exactly the new chunk's bytes, also with bytes left over |
| MemPool.StepSafe | aanf/libevent-based/src/memblock.cc:73-228 | each call keeps the invariant and the balance of every byte weighting |
| MemPool.RunConserves | aanf/libevent-based/src/memblock.cc:73-228 | over any run, held, recycled and unorganized bytes stay those of the chunks |
| MemPool.EachByteHasOneOwner | aanf/libevent-based/src/memblock.cc:73-228 | in every reachable state each byte of each chunk is in exactly one held block, recycled block or tail, and no block reaches outside |
| MemPool.BytesBalance | aanf/libevent-based/src/memblock.cc:90-226 | in every reachable state chunk bytes = unorganized + recycled + held |
| MemPool.HeldBlocksAreExclusive | aanf/libevent-based/src/memblock.cc:118-228 | a held block lies in its chunk and shares no byte with another held block, a recycled one or a tail |
| MemPool.ServedBlock | aanf/libevent-based/src/memblock.cc:127-217 | a block served has the least step multiple that covers the request, lies in its chunk and overlaps no block held |
| MemPool.ServedInTurn | aanf/libevent-based/src/memblock.cc:209-226 | requests for one size take the blocks of its list in the order in which they were put there |
| MemPool.HistogramCounts | aanf/libevent-based/src/memblock.cc:140 | in every reachable state the counter of each multiple is the number of requests in the list of operations that had a size in range and needed that many steps |
| MemPool.TailGoesToMostRequested | aanf/libevent-based/src/memblock.cc:154-199 | a request that gives up a chunk cuts its tail into consecutive blocks of a size that, counted from the list of operations, no other size was requested more often than, and files the rest under its own size |
| MemPool.FreshOutside | aanf/libevent-based/src/memblock.cc:197-208 | a concrete pool, made by two small enlargements, that hands out a block outside its chunk |
| MemPool.MisfiledIff | aanf/libevent-based/src/memblock.cc:155-180 | with the pieces filed under the requested multiple the lists keep to their sizes exactly when that is the most requested one or nothing is carved |
| MemPool.MisfiledOccurs | aanf/libevent-based/src/memblock.cc:155-180 | a concrete pool, after two enlargements and one request, on which a request files a piece under a size that is not its own |
| MemPool.RetryAfterEnlarge | aanf/libevent-based/src/memblock.h:51-56 | after -2, enlarging by at least the rounded largest size makes the same request succeed, inside a chunk |
| MemPool.RetryAsWrittenIff | aanf/libevent-based/src/memblock.cc:94-101 | with the guard of EnlargeMemPool as written the retry succeeds exactly when the last chunk has no tail |
| MemPool.GuardSticks | aanf/libevent-based/src/memblock.cc:94-101 | a concrete pool on which the guard as written makes every retry fail |
| MemPool.Allocator.EnlargeMemPool | aanf/libevent-based/src/memblock.cc:73-115 | -1 and no change for a size that is not positive; otherwise 0, and one chunk of the least step multiple that covers the size is new |
| MemPool.Allocator.MostRequested | aanf/libevent-based/src/memblock.cc:157-164 | the loop finds the most requested multiple |
| MemPool.Allocator.CutPieces | aanf/libevent-based/src/memblock.cc:168-179 | the carving loop yields exactly the specified pieces, remainder, position and byte count |
| MemPool.Allocator.CutRest | aanf/libevent-based/src/memblock.cc:165-199 | the tail ends up in the recycle lists and the next chunk becomes current |
| MemPool.Allocator.TakeFromChunks | aanf/libevent-based/src/memblock.cc:142-208 | code, block and new state of a request that no recycled block serves |
| MemPool.Allocator.GetMemBlock | aanf/libevent-based/src/memblock.cc:118-217 | code, block and new state of a request, with its count in the histogram; 0 exactly with a block, -1 exactly out of range; the block becomes held; the object stays valid |
| MemPool.Allocator.ReturnMemBlock | aanf/libevent-based/src/memblock.cc:219-228 | the block is held no more and is last in the list of its size; the object stays valid |
| ClientPool.FirstIdle | aanf/asio-based2/include/skeleton.hpp:1469-1496 | an idle connection of the list if and only if there is one |
| ClientPool.FirstIdleIsFirst | aanf/asio-based2/include/skeleton.hpp:1469-1496 | the idle connection that comes first in the list is the one found |
| ClientPool.Insert | aanf/asio-based2/include/skeleton.hpp:1498-1521 | membership in the endpoint lists after an insertion |
| ClientPool.Remove | aanf/asio-based2/include/skeleton.hpp:601-626 | no occurrence of the connection is left in its list; other entries stay |
| ClientPool.WithoutInOrder | aanf/asio-based2/include/skeleton.hpp:601-626 | the connections that stay in a list keep their order |
| ClientPool.SendInv | aanf/asio-based2/include/skeleton.hpp:337-362 | a send, on an idle or a new connection, keeps the invariant, even from within a callback |
| ClientPool.HandleInv | aanf/asio-based2/include/skeleton.hpp:811-971 | every completion handler, with or without an error, keeps the invariant |
| ClientPool.RunInv | aanf/asio-based2/include/skeleton.hpp:337-518 | the invariant holds after every run of sends, completions in any order and calls of ToWriteThenClose that find no idle connection |
| ClientPool.OneOperationIff | aanf/asio-based2/include/skeleton.hpp:397-431 | connecting and in-use connections have one pending operation and idle ones none throughout a run exactly when no ToWriteThenClose of a client finds an idle connection in it |
| ClientPool.CloseThenSend | aanf/asio-based2/include/skeleton.hpp:397-431 | after a ToWriteThenClose that found one, the next send picks the same connection, which then has two writes pending |
| ClientPool.TwoWritesOccur | aanf/asio-based2/include/skeleton.hpp:397-431 | a concrete run from the empty pool reaches such a state |
| ClientPool.CodeFaultsIff | aanf/asio-based2/include/skeleton.hpp:945-967 | an assertion of the read handler fails exactly when a callback that was called returned a server's code |
| ClientPool.CodeDecides | aanf/asio-based2/include/skeleton.hpp:945-956 | a negative code of the callback, whatever it sent, leaves the connection in no map and in no endpoint list; after 1 it is connected, listed and idle |
| ClientPool.ErrorCloses | aanf/asio-based2/include/skeleton.hpp:905-948 | a completion with an error, of any kind, leaves the connection in no map and in no endpoint list, and so does a reply that the callback refuses |
| ClientPool.OneOperationPerRequest | aanf/asio-based2/include/skeleton.hpp:464-518 | in every such run a connecting or in-use connection has exactly one pending operation, an idle one none, at most one request is on its wire, and no assertion on `in_use` fails |
| ClientPool.ReplyGoesToChosen | aanf/asio-based2/include/skeleton.hpp:337-362 | in every such run a reply goes to the callback of the request last written on its connection if and only if one was given or none was left over |
| ClientPool.OneFatePerRequest | aanf/asio-based2/include/skeleton.hpp:897-956 | in every such run each request issued is on one connection, answered once, or lost, and never two of these |
| ClientPool.NoStaleConnection | aanf/asio-based2/include/skeleton.hpp:601-626 | in every such run a destroyed connection has no pending operation, no reply to come and no list entry, although it was inserted twice |
| ClientPool.RunsAreBounded | aanf/asio-based2/include/skeleton.hpp:811-971 | without new requests each completion uses up some of a measure of the operations pending |
| ClientPool.RestMeansSettled | aanf/asio-based2/include/skeleton.hpp:811-971 | where nothing is pending, every request was answered or lost |
| ClientPool.RoundTrip | aanf/asio-based2/include/skeleton.hpp:897-971 | three successful completions turn a written request into exactly one answer and an idle connection |
| ClientPool.FirstRoundTrip | aanf/asio-based2/include/skeleton.hpp:435-462 | the same from a connect, and the connection is then found idle |
| ClientPool.StaleCallback | aanf/asio-based2/include/skeleton.hpp:365-397 | a request sent without a callback on a connection that had one is answered through the old callback |
| ClientPool.StaleCallbackOccurs | aanf/asio-based2/include/skeleton.hpp:365-397 | a concrete run reaches such a state |
| ClientPool.WriteErrorLeaksIff | aanf/asio-based2/include/skeleton.hpp:1236-1246 | the write handler as written leaks the connection, and breaks the invariant, exactly when the write failed |
| ClientPool.OneOperationAsWrittenIff | aanf/asio-based2/include/skeleton.hpp:1236-1246 | with that handler, connections and operations agree throughout a run exactly when no write in it completes with an error and no ToWriteThenClose of a client finds an idle connection |
| ClientPool.LeakOccurs | aanf/asio-based2/include/skeleton.hpp:1236-1246 | a concrete run from the empty pool leaks a connection |
| ClientPool.LeakedForever | aanf/asio-based2/include/skeleton.hpp:1236-1246 | in every further run of the pool with that handler a leaked connection is neither closed nor used again |
| ClientPool.Skeleton.FindIdleTCPClientSocket | aanf/asio-based2/include/skeleton.hpp:1469-1496 | the list walk returns the first idle connection |
| ClientPool.Skeleton.InsertTCPClientSocket | aanf/asio-based2/include/skeleton.hpp:1498-1521 | the connection is last in the list of its endpoint, and nothing else changed |
| ClientPool.Skeleton.DestroySocket | aanf/asio-based2/include/skeleton.hpp:601-626 | the whole new state after a connection was destroyed; it is in no map and no list |
| ClientPool.Skeleton.ToConnectThenWrite | aanf/asio-based2/include/skeleton.hpp:435-462 | the whole new state after a connect was started |
| ClientPool.Skeleton.ToWriteThenRead | aanf/asio-based2/include/skeleton.hpp:464-518 | the whole new state after a write was started on an idle connection |
| ClientPool.Skeleton.ToWrite | aanf/asio-based2/include/skeleton.hpp:337-397 | the whole new state after a send, reusing an idle connection or connecting |
| ClientPool.Skeleton.HandleConnectThenWrite | aanf/asio-based2/include/skeleton.hpp:811-895 | the whole new state after a connect completed; after an error the connection is in no map and no list |
| ClientPool.Skeleton.HandleWriteThenReadL | aanf/asio-based2/include/skeleton.hpp:1236-1265 | the whole new state after a write completed; after an error the connection is in no map and no list |
| ClientPool.Skeleton.HandleReadLThenReadV | aanf/asio-based2/include/skeleton.hpp:1267-1313 | the whole new state after the length was read; after an error or a length over the limit the connection is in no map and no list |
| ClientPool.Skeleton.HandleReadVThenProcess | aanf/asio-based2/include/skeleton.hpp:897-971 | the whole new state after a reply was read and its callback, which may send, returned any code; after an error or a negative code the connection is in no map and no list, after 1 it is idle |
| ClientPool.Skeleton.ToWriteThenClose | aanf/asio-based2/include/skeleton.hpp:397-431 | the whole new state after a last write was started; -1 exactly without an idle connection |
| ClientPool.Skeleton.HandleWriteThenClose | aanf/asio-based2/include/skeleton.hpp:1315-1325 | the whole new state after the last write completed: the connection is in no map and no list |
| FanOut.NextInv | aanf/asio-based2/test/cb_lv_bf.cc:51-253 | every event (requests, service, deliveries, losses, hang-ups) keeps the table, the packets in flight and the answers consistent |
| FanOut.AnswersAreRight | aanf/asio-based2/test/cb_lv_bf.cc:143-253 | in every reachable state each answer goes to the client that asked and is the sum of the two replies to its number: the two operands plus the two numbers drawn for it |
| FanOut.AnswersComeFromRun | aanf/asio-based2/test/cb_lv_bf.cc:51-253 | for each answer of a run, the run has a request of the client it goes to and one service of each backend with its operand, and the sum is the two operands plus the two numbers drawn in these |
| FanOut.SentIfConnected | aanf/asio-based2/test/cb_lv_bf.cc:181-197 | an answer is made only when a reply is taken in, and is sent exactly if the client is still connected |
| FanOut.RefusedCloses | aanf/asio-based2/test/cb_lv_bf.cc:69-141 | a refused request costs the client its connection and changes nothing else; an accepted one does not |
| FanOut.AtMostOneAnswer | aanf/asio-based2/test/cb_lv_bf.cc:157-252 | in every reachable state a number has at most one answer |
| FanOut.RunsAreBounded | aanf/asio-based2/test/cb_lv_bf.cc:69-252 | without new requests and losses each step uses up one unit of a measure of requests and replies in flight |
| FanOut.WorkCanGoOn | aanf/asio-based2/test/cb_lv_bf.cc:69-252 | while the measure is positive some backend or delivery can move |
| FanOut.CanFinish | aanf/asio-based2/test/cb_lv_bf.cc:69-252 | from every state runs lead to, backends and network alone can finish all work |
| FanOut.QuiescentMeansAnswered | aanf/asio-based2/test/cb_lv_bf.cc:69-252 | where nothing can move and nothing was lost, every accepted number has been answered |
| FanOut.CallBack2AsWrittenIff | aanf/asio-based2/test/cb_lv_bf.cc:202-253 | the answer of the second callback as written differs from the intended one exactly for a packet of another type whose number is known and has both replies; the table never differs |
| FanOut.AtMostOneAsWrittenIff | aanf/asio-based2/test/cb_lv_bf.cc:202-253 | with that callback and stray packets, a run answers each number at most once exactly when no packet of another type reaches the callback for a number already answered |
| FanOut.SecondAnswerOccurs | aanf/asio-based2/test/cb_lv_bf.cc:202-253 | there is a run that answers a number twice |
| FanOut.StrayPacketAnswersAgain | aanf/asio-based2/test/cb_lv_bf.cc:202-253 | as written, a packet of another type for a finished number answers the client a second time |
| FanOut.TestBF.ReceiveRequest | aanf/asio-based2/test/cb_lv_bf.cc:51-141 | 0 exactly for a request with a new number: its entry is new and both backends get their operand; otherwise -1 and no change |
| FanOut.TestBF.ReceiveRspFromBB1CallBack | aanf/asio-based2/test/cb_lv_bf.cc:143-200 | 1 exactly for its own packet type and a known number: the sum grows by the value, the reply is marked, and the answer is there exactly if the other one is; otherwise -1 and no change |
| FanOut.TestBF.ReceiveRspFromBB2CallBack | aanf/asio-based2/test/cb_lv_bf.cc:202-253 | the same for the second backend |
| FanOut.TestBB.ProcessData | aanf/asio-based2/test/cb_lv_bb1.cc:44-88 | the reply of either backend has the number of the request and its operand plus the number drawn; a packet of another type gives -1 and draws no number |
| Service.CompletesChanges | aanf/asio-based2/include/skeleton.hpp:811-971 | a completion concerns only the request its connection carries: a reply handed over answers it, any other completion leaves it or loses it |
| Service.NextInv | aanf/asio-based2/test/cb_lv_bf.cc:51-253 | requests through the pool and replies handed over by it keep table, calls and answers consistent |
| Service.AtMostOneAnswer | aanf/asio-based2/test/cb_lv_bf.cc:51-253 | over every run of front end and pool each number is answered at most once |
| Service.AnswersAreSums | aanf/asio-based2/test/cb_lv_bf.cc:143-253 | over every run an answer adds up the values of the two requests made for its number, each answered by the pool, and goes to the client recorded |
| Service.AnswersAddReplies | aanf/asio-based2/test/cb_lv_bf.cc:143-253 | each answer of a run adds the values of two replies that the pool handed over in it, one to the request its number made of each backend |
| Service.AnsweredWhenBothBack | aanf/asio-based2/test/cb_lv_bf.cc:186-250 | a number whose two requests the pool answered has its answer |
| Service.RunsAreBounded | aanf/asio-based2/include/skeleton.hpp:811-971 | without new requests the service comes to rest within the pool's measure |
| Service.AllAnsweredAtRest | aanf/asio-based2/test/cb_lv_bf.cc:51-253 | where a run without errors has come to rest, every number accepted has its answer |
| SendQueue.FlattenConsume | zxbnf/message.hpp:67-84 | accounting for n bytes leaves the queue without its first n bytes |
| SendQueue.ConsumeTwice | nf/socket.hpp:116-166 | two writes account for as much as one of their total |
| SendQueue.NothingLostOrReordered | zxbnf/context.hpp:18-49 | in every interleaving of enqueues and partial writes, written bytes followed by pending bytes are the bytes queued |
| SendQueue.WireThenPending | cppnf/async_tcp_socket.hpp:99-135 | a write of entries that hold the first pending bytes puts on the wire what, followed by the bytes still pending, is what was pending before |
| SendQueue.Simulates | cppnf/async_tcp_socket.hpp:120-134 | queues that agree up to empty parts still agree, and write the same bytes, after the same event |
| SendQueue.FollowersSimulate | cppnf/async_tcp_socket.hpp:99-144 | any two implementations that follow the specification simulate each other step by step |
| SendQueue.TraceFollowsRun | c_nf/process.c:126-149 | over a whole run each implementation keeps the byte stream of the specification |
| OffsetQueue.NfSocket.AsyncSend | nf/socket.hpp:48-63 | refused exactly for a list over its bound; otherwise the message is last |
| OffsetQueue.NfSocket.Advance | nf/socket.hpp:145-159 | the accounting loop leaves exactly the bytes not written, and computes the intended offset |
| OffsetQueue.NfSocket.Gather | nf/socket.hpp:117-128 | one entry for each message, and together they hold exactly the pending bytes |
| OffsetQueue.NfSocket.OnWritable | nf/socket.hpp:108-170 | queue and code after any sequence of kernel answers: interrupted writes are tried again; 1 exactly with an empty queue, else -1 exactly if the first answer that ends the call is a failure, and 0 otherwise; the bytes on the wire, then those pending, are those pending before |
| OffsetQueue.CodeOfStop | nf/socket.hpp:116-169 | with bytes still queued, the first answer that ends the call decides between -1 and 0 |
| OffsetQueue.AfterLosesTaken | nf/socket.hpp:116-166 | what such a sequence does to the queue is to take the bytes the kernel took from its front, and nothing else |
| OffsetAsWritten.AsWrittenIff | nf/socket.hpp:113-159 | one write with gather and accounting as written keeps written plus pending bytes right, for every content of the memory behind the messages, exactly when nothing of the front message had been sent before |
| OffsetAsWritten.RunAsWrittenIff | nf/socket.hpp:48-170 | a whole run as written keeps the stream right exactly when each write starts at a message's first byte |
| OffsetAsWritten.AsWrittenFails | nf/socket.hpp:145-159 | on a two-byte message, two one-byte writes leave the second byte to be sent again |
| OffsetAsWritten.EvAsWrittenIff | aanf/libevent-based/src/tcp_socket.cc:231-274 | gather and accounting as written keep the stream right, whatever is found past the entries, exactly when nothing of the front block was sent before and the write leaves something of the entries, or the next block is empty |
| OffsetAsWritten.WholeBlockFails | aanf/libevent-based/src/tcp_socket.cc:262-267 | one block that one write takes whole already shows it |
| OffsetAsWritten.EvRunAsWrittenIff | aanf/libevent-based/src/tcp_socket.cc:229-283 | the stream is right throughout a run as written, whatever is found past the entries, exactly when every write that takes something starts at a block's first byte and leaves something of the entries |
| OffsetQueue.IntendedConsumes | nf/socket.hpp:145-159 | the intended accounting refines the specification |
| OffsetQueue.TcpSocket.PushDataToSend | aanf/libevent-based/src/socket.cc:63-70 | the block is last, and nothing else changed |
| OffsetQueue.TcpSocket.Gather | aanf/libevent-based/src/tcp_socket.cc:231-244 | the entries hold the first pending bytes, front block from its offset, at most 999 of them; with fewer than 1000 blocks they hold all |
| OffsetQueue.TcpSocket.WriteHandler | aanf/libevent-based/src/tcp_socket.cc:229-283 | any write count follows the specification; the bytes on the wire, then those pending, are those pending before; 1 exactly when the queue is empty; errors change nothing |
| NodeQueue.SocketInfo.Gather | c_nf/process.c:103-111 | the entries are the unsent parts of all nodes in order |
| NodeQueue.SocketInfo.Advance | c_nf/process.c:126-149 | nodes covered are freed and the next one marked; the result follows the specification; 0 exactly when no node is left |
| NodeQueue.NeverReturnsAsWritten | c_nf/process.c:126-149 | the loop as written reads through null exactly when the count is enough for every node with the next length subtracted each time, in unsigned 32-bit arithmetic; otherwise it spins for ever with a byte of its front node unsent |
| NodeQueue.SocketInfo.ProcessTcpSend | c_nf/process.c:103-152 | each of the return codes, and what is left of the queue; the bytes on the wire, then those pending, are those pending before |
| NodeQueue.AsyncTCPDataSocket.SendMessage | cppnf/async_tcp_socket.hpp:222-232 | 0 and no change when the list is full; otherwise a new id, and the message is last |
| NodeQueue.AsyncTCPDataSocket.Advance | cppnf/async_tcp_socket.hpp:120-135 | the loop leaves exactly the bytes not written |
| NodeQueue.AsyncTCPDataSocket.Gather | cppnf/async_tcp_socket.hpp:103-110 | the entries are the unsent parts of all messages in order |
| NodeQueue.AsyncTCPDataSocket.OnWritable | cppnf/async_tcp_socket.hpp:99-144 | each of the return codes, and what is left of the queue; the bytes on the wire, then those pending, are those pending before |
| ChainQueue.TCPMessageToSend.SeekForward | zxbnf/message.hpp:67-84 | marks the least of the asked and the unsent bytes; exactly these are gone from the front; a message that had too few is all sent |
| ChainQueue.TCPConnection.PushMessageToSend | zxbnf/context.hpp:45-49 | the chain's bytes are a new last message; the others are as before |
| ChainQueue.TCPConnection.ShrinkSendMsgList | zxbnf/context.hpp:18-43 | follows the specification; returns the count that found nothing, which is 0 exactly when num is at most the pending bytes |
| ChainQueue.TCPConnection.GetIOVectorToSend | zxbnf/context.hpp:51-73 | the entries are the non-empty buffers in order up to the bound; their bytes are the first pending bytes, and all of them if the bound was not reached |
| ChainRun.WriteOnce | zxbnf/context.hpp:18-73 | gathering, a partial write of the entries and accounting follow the specification; nothing is written only if nothing was asked or is pending |
| ChainRun.Transmit | zxbnf/context.hpp:18-73 | a connection in memory driven through any messages, in buffers of any size, and any partial writes carries the specification's bytes, and after a flush all bytes queued, in order |
| SideBySide.WriteNf | nf/socket.hpp:145-159 | an object that agrees with a sequence of messages still does, with the same pending bytes, after any write count |
| SideBySide.WriteEv | aanf/libevent-based/src/tcp_socket.cc:229-283 | the same for the queue with one front offset and capped entries |
| SideBySide.WriteC | c_nf/process.c:89-152 | the same for the linked nodes |
| SideBySide.WriteCpp | cppnf/async_tcp_socket.hpp:99-144 | the same for a head and tail per message |
| SideBySide.WriteZxb | zxbnf/context.hpp:18-43 | the same for chains of buffers with cursors, even for counts above the pending bytes |
| SideBySide.QueueNf | nf/socket.hpp:48-63 | an object that agrees with a sequence of messages still does after a message was queued in both |
| SideBySide.QueueEv | aanf/libevent-based/src/socket.cc:63-70 | the same for the queue with one front offset |
| SideBySide.QueueCpp | cppnf/async_tcp_socket.hpp:222-232 | the same for a head and tail per message |
| SideBySide.QueueZxb | zxbnf/context.hpp:45-49 | the same for a chain of buffers, whose bytes are the message |
| LvDecoder.BigEndianRoundTrip | aanf/libevent-based/src/bin_tcp_socket.cc:65-73 | a length survives the network byte order, most significant byte first |
| LvDecoder.ParseExtends | aanf/libevent-based/src/bin_tcp_socket.cc:32-101 | parsing a prefix and going on from what is left is parsing the whole |
| LvDecoder.RestIsStuck | aanf/libevent-based/src/bin_tcp_socket.cc:32-101 | what a parse leaves yields no further packet |
| LvDecoder.DecodeEncode | aanf/libevent-based/src/bin_tcp_socket.cc:65-97 | decoding encoded packets gives them back up to the first whose length cannot be served, and leaves the rest |
| LvDecoder.RoundTripIff | aanf/libevent-based/src/bin_tcp_socket.cc:65-97 | all packets come back exactly when every body has at least one byte and fits the largest block with its length field |
| LvDecoder.BinTcpSocket.ReadLength | aanf/libevent-based/src/bin_tcp_socket.cc:37-70 | the object stays in step with the parse of all bytes read, through any partial read of the length |
| LvDecoder.BinTcpSocket.ReadBody | aanf/libevent-based/src/bin_tcp_socket.cc:72-101 | the same for the body; 1 exactly when the packet is complete |
| LvDecoder.BinTcpSocket.ReadHandler | aanf/libevent-based/src/bin_tcp_socket.cc:32-101 | one call with any two read counts keeps the object in step; progress unless it met a length it cannot serve |
| LvDecoder.BinTcpSocket.TakePacket | aanf/libevent-based/src/netframe.cc:260-270 | the packet handed over is the next of the parse, and the receive state is clear |
| LvDecoder.StuckParse | aanf/libevent-based/src/bin_tcp_socket.cc:65-97 | behind a length that cannot be served no packet is ever found |
| LvDecoder.Receive | aanf/libevent-based/src/bin_tcp_socket.cc:32-101 | however the reads chop the stream, the packets are those of the whole-stream parse |
| LineDecoder.LinesAppend | aanf/libevent-based/src/line_tcp_socket.cc:88-100 | cutting after a newline does not change the lines |
| LineDecoder.SplitIsUnique | aanf/libevent-based/src/line_tcp_socket.cc:88-100 | there is one way to cut a text into whole lines and a residue without a newline |
| LineDecoder.AppendText | aanf/libevent-based/src/line_tcp_socket.cc:67-100 | the last newline of everything read is found in residue plus new bytes |
| LineDecoder.LineTcpSocket.ScanBack | aanf/libevent-based/src/line_tcp_socket.cc:67-86 | scanning only the new bytes backwards finds the last newline of the whole buffer |
| LineDecoder.LineTcpSocket.MoveDown | aanf/libevent-based/src/line_tcp_socket.cc:99-100 | the in-place move leaves exactly the residue |
| LineDecoder.LineTcpSocket.ReadHandler | aanf/libevent-based/src/line_tcp_socket.cc:45-103 | lines are handed out exactly when a newline was read; emitted bytes plus residue are all bytes read, and the residue has no newline |
| LineDecoder.Receive | aanf/libevent-based/src/line_tcp_socket.cc:45-103 | however the reads chop the stream, the blocks end in newlines and join to the stream up to the last newline read; with enough reads all of it is read exactly when no unfinished line fills the buffer before its end |
| HttpHead.ValueOfDecimal | aanf/asio-based2/test/http_c.cc:82 | reading a printed number gives the number |
| HttpHead.ParseIntIs | aanf/asio-based2/include/skeleton.hpp:1073-1080 | a printed number, with or without a sign, is read exactly if it fits an int, else refused |
| HttpHead.NoInt | aanf/asio-based2/include/skeleton.hpp:1073-1080 | nothing, a sign alone, or anything that is no digit behind an optional sign is refused |
| HttpHead.PrepareDataThenSend | aanf/asio-based2/test/http_c.cc:79-94 | the send buffer holds exactly head, length, head and body |
| HttpHead.DelimiterPosition | aanf/asio-based2/include/skeleton.hpp:1021-1033 | the first delimiter in the buffer is the head's, whatever the body holds |
| HttpHead.KeyPosition | aanf/asio-based2/include/skeleton.hpp:1046-1056 | the first length key in the buffer is the head's, whatever the body holds |
| HttpHead.RefusedIff | aanf/asio-based2/include/skeleton.hpp:1032-1088 | no end of head exactly when the delimiter occurs nowhere, and no length exactly when the delimiter occurs and the key does not |
| HttpHead.FieldDecides | aanf/asio-based2/include/skeleton.hpp:1064-1101 | with both, the field behind the first key decides: refused if it is no int, too large exactly when head and content together exceed the limit, otherwise both lengths and the missing bytes |
| HttpHead.ParseUndoesPrint | aanf/asio-based2/include/skeleton.hpp:1012-1101 | for any body, any part of it already read and any bytes behind: too large exactly when the whole message exceeds the limit, otherwise head length, content length and missing bytes are exact; a body whose length is no int is refused |
| HttpHead.IncompleteHeadIff | aanf/asio-based2/include/skeleton.hpp:1021-1031 | while the head is incomplete no delimiter is found exactly when none reaches into the bytes behind those read |
| HttpHead.IncompleteHead | aanf/asio-based2/include/skeleton.hpp:1021-1031 | in a fresh buffer none is found |
| HttpHead.OldDelimiterFound | aanf/asio-based2/include/skeleton.hpp:1021-1031 | a delimiter left in the buffer ends a head too soon |
| HttpHead.HttpSocket.HandleReadHTTPHeadThenReadHTTPContent | aanf/asio-based2/include/skeleton.hpp:1012-1122 | the searches by loops give the outcome of the parse; which outcomes close the connection; the bytes read stay, and there is exactly room for the content |
| HttpHead.HttpSocket.HandleReadHTTPContentThenProcess | aanf/asio-based2/include/skeleton.hpp:1162-1190 | the buffer handed on is what was read first followed by the rest, no longer |
| HttpHead.SplitMessage | aanf/asio-based2/test/http_c.cc:39-49 | splitting a printed message gives its body |
| HttpHead.Exchange | aanf/asio-based2/test/http_c.cc:79-94 | printing, two reads at any cut behind the head, parsing and splitting give message and body back, and a message over the limit, and no other, closes the connection |
| Dispatch.StepKeeps | aanf/libevent-based/src/netframe.cc:355-408 | every step of the event loop and the workers, and every spurious wakeup, keeps the invariant |
| Dispatch.DispatchIsSafe | aanf/libevent-based/src/netframe.cc:355-408 | over every interleaving: bounded queues, FIFO and at most once, no worker asleep on a non-empty queue without a signal to come, each message in a queue no longer than any queue was when the unlocked scan read it, refusal only if the scan found every queue full, and one decision per message offered |
| Dispatch.EveryOfferIsDecidedOnce | aanf/libevent-based/src/netframe.cc:355-387 | in every run the messages queued or refused, in order, and the one in hand are the messages offered |
| Dispatch.RunsAreBounded | aanf/libevent-based/src/skeleton.cc:188-209 | without new messages and spurious wakeups the threads come to rest within a stated number of steps |
| Dispatch.AtRestMeansDrained | aanf/libevent-based/src/skeleton.cc:188-193 | where no thread can move, every queue is empty, every worker waits and every accepted message was taken in order: no deadlock and no lost wakeup |
| Dispatch.RunBalances | aanf/libevent-based/src/netframe.cc:364-383 | as long as no message is taken the queue lengths differ by at most one |
| Dispatch.NetFrame.ShortestQueue | aanf/libevent-based/src/netframe.cc:364-371 | the scan finds the first of the shortest queues |
| Dispatch.NetFrame.PushMessageToRecvQueue | aanf/libevent-based/src/netframe.cc:355-387 | -2 exactly when all queues are full; otherwise the first shortest grows, with a signal exactly when it was empty |
| Dispatch.PushAlone | aanf/libevent-based/src/netframe.cc:355-387 | uninterrupted, the event loop's steps have the effect of the call |
| HashSpec.PutPushes | c_nf/hash.c:66-95 | a put pushes on one key's stack and leaves the others |
| HashSpec.GetIsTop | c_nf/hash.c:42-64 | a get returns the latest put not yet deleted, or null |
| HashSpec.DeletePops | c_nf/hash.c:97-135 | a delete restores the earlier value and leaves the other keys |
| HashSpec.TableIsMapOfStacks | c_nf/hash.c:42-135 | for any hash into the table, any sequence of calls is answered as by a map from keys to stacks |
| HashSpec.MapOfStacksIff | c_nf/hash.c:57-112 | with the comparison as written this holds for all sequences of calls over a set of keys exactly when no key of a bucket is a proper prefix of another |
| HashSpec.ShortKeyFindsLongOne | c_nf/hash.c:57 | one put and one get that differ otherwise |
| Links.LinkFront | c_nf/hash.c:81-91 | an item put in front leaves a chain well linked both ways |
| Links.Unlink | c_nf/hash.c:118-128 | an item taken out leaves a chain well linked both ways, with its new head |
| HashTable.HashTable.constructor | c_nf/hash.c:25-40 | a new table is empty and valid |
| HashTable.HashTable.Walk | c_nf/hash.c:49-61 | the chain walk ends at the first match, or at null |
| HashTable.HashTable.HashGet | c_nf/hash.c:42-64 | the value of the first match in the key's bucket |
| HashTable.HashTable.HashPut | c_nf/hash.c:66-95 | the contents are those of the specified put; all chains stay well linked and disjoint; the return code as written |
| HashTable.HashTable.HashDelete | c_nf/hash.c:97-135 | contents and value are those of the specified delete; all chains stay well linked and disjoint |
| HashTable.RunCalls | c_nf/hash.c:25-135 | a new table in memory answers any calls over such keys as a map from keys to stacks |
| RecencySpec.ElapsedIsDifference | c_nf/io_service.c:87 | the 64-bit difference is the time elapsed when the clock has not gone back |
| RecencySpec.SweepIsFilterIff | c_nf/io_service.c:85-94 | the early-stopping sweep keeps what a full filter keeps, in order, exactly when the idle sockets are together at the end |
| RecencySpec.SortedIdleAtEnd | c_nf/io_service.c:85-94 | in a list ordered by time they are |
| RecencySpec.MarkKeepsOrderIff | c_nf/io_service.c:53-76 | marking keeps the order exactly when the clock is not behind the other sockets' times |
| RecencySpec.SweepKeeps | c_nf/io_service.c:85-94 | a socket of an ordered list survives exactly when it is not idle |
| RecencySpec.RunIsFullFilter | c_nf/io_service.c:53-108 | over every run of uses and sweeps the list holds exactly the sockets, with their times, that an unordered table with a full filter holds, ordered by time |
| Recency.IoService.MarkServerSocketInfo | c_nf/io_service.c:53-76 | the list stays well linked with the same members, the socket first with the new time |
| Recency.IoService.LastInUse | c_nf/io_service.c:82-94 | the walk from the tail stops where the specified sweep does |
| Recency.IoService.DestroyIdleServerSocketInfo | c_nf/io_service.c:78-108 | the list is cut to what the sweep keeps and stays well linked; the count is that of the sockets removed |

## Left out

- Socket setup, bind, connect, accept, epoll, libevent and asio internals, logging, configuration, timers and generated protobuf code.
- The near copies of the asio skeleton and of c_nf, the two-size block pools of cppnf, nf and zxbnf, and the stubs.
- Synchronous clients, UDP, server-side sockets and the timeout sweep of the asio skeleton.
- HTTP connections in `ClientPool`: the pool is modelled for length-value connections; `HttpHead` models the HTTP head and content on their own, without 100-continue and without the condition that ends the first read.
- ClientPool.Skeleton.HandleReadLThenReadV: a length of 4 or less, for which the source reads behind its 4-byte buffer, is not told apart.
- ClientPool.Skeleton.HandleReadVThenProcess: callbacks send by ToWriteThenCallBack and ToWriteThenRead; a ToWriteThenClose from within one is not modelled.
- HttpHead.FieldDecides: lengths are unbounded integers, so an overflow of the sum of head and content length is not modelled.
- Service.NextInv: the service's clients and the backends' random numbers are parameters; hanging up is in `FanOut` only.
- FanOut.NextInv: sequence numbers and sums are unbounded integers, so wrap-around is not modelled; the packet length fields are not either.
- MemPool.Allocator.GetMemBlock: block contents and the pool lock are not modelled; sizes are unbounded; a pool without a first chunk is not asked (`CreateMemPool` adds one).
- ChainQueue.TCPConnection.ShrinkSendMsgList: does not model giving the buffers of a finished message back to the memory pool.
- ChainQueue.TCPConnection.PushMessageToSend: a chain is complete before it is queued, so links and tails do not change afterwards, as nothing in the modelled code changes them.
- NodeQueue.SocketInfo.Advance: freeing memory is leaving the list; nothing is said about the freed nodes. c_nf has no enqueue function to model.
- LvDecoder.Receive: a pool that refuses a block of an admissible size is not modelled; neither is a failing read, after which the connection is closed.
- LineDecoder.Receive: a full buffer without a newline stops it, as in the source; a pool refusal is not modelled.
- Dispatch.DispatchIsSafe: one event loop pushes, as in the source; the `cancel_` flag and what workers do with a message are left out.
- Dispatch.NetFrame.PushMessageToRecvQueue: the null message, answered by -1, is not modelled.
- HashTable.HashTable.HashDelete: does not model freeing the key; reading past a stored key that is shorter than the key looked for counts as a mismatch.
- RecencySpec.RunIsFullFilter: runs start from any ordered list, since the source has no function that inserts a server socket.
- Idle client sockets of c_nf (get_idle_client_socket_info, return_client_socket_info), which only push and pop at a list head.
