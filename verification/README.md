# Relayra's durable delivery, verified

A Dafny model of how Relayra moves requests from a listener to a sender and results back over
connections that may drop at any point. It covers four cores and the theorems that join them.

**Websocket outbox.** `OutboxLog` is the durable log of one scope: entries under numbers, the next
number, the receive cursor. `Outbox` has the two stores of it, SQLite's table with a state row and
Redis's sorted set with payload hashes, as classes proved against the log; `OutboxLockstep` concludes
that no sequence of calls tells them apart. `WsSession` has the flush and receive loops, `Rebuild` what
a gap repair queues again. `Protocol` is the step machine of one direction: append, send, receive, save
the cursor, ack, drop, reconnect, lose an entry, repair. `SessionRuns` shows over the contracts of the
session's methods that whatever a flush or a receive turn does, failing or not, is a run of it.
`ResultNames` counts over all acks how often a result is reported.

**Chunked transfers.** `Chunking` slices, `Reassembly` has the reassembly machine and both stores of
it, `RequestTransfer` the receipt-driven loop and `ResultTransfer` the streamed one; `ChunkEvents` has
the handlers that join them.

**Lease tables.** `RequestLedger` is the listener's queue, `RequestQueue` its SQLite and Redis forms,
`QueueLockstep` their equality, `PollPayload` what a poll response carries. `SenderStore` has the
sender's pending results and request states, `ResultPolls` what lossy polls do to them.

**Sender dedupe.** `Dedupe` has the arrival handler and the dispatcher, as code and as interleaved steps.

`ListenerInbound`, `Streams` and `EndToEnd` put outbox order, reassembly, acknowledgement and gap repair
together: the sender deletes a result only once the listener has it. `RepairRace` has the exact condition
under which a repair and a chunking loop may meet, `LosingRun` a run in which they meet otherwise.

## Hypotheses

- Each store operation is one atomic step, and so is handling one inbound message. A crash may fall
  between handling a message and persisting its number.
- Both handshakes carry durable receive cursors.
- Request ids are fresh. In `EndToEnd` at most one result per id is being cut at a time; on SQLite an id
  must always stand for the same bytes and chunk size, on Redis nothing of the kind is needed.
- Gaps come from a number handed out without an entry, or an entry lost from the store, as when Redis no
  longer has a payload hash. For runs with them `EndToEnd.NoResultLost` asks what `EndToEnd.Harmless` says
  of the moment a repair meets a chunking loop; `RepairRace.RepairMeetsLoop` is the exact condition on what
  the sender has then, for a connection that holds until both are through (a drop before that leads to
  another repair, of which the same is asked). Appends alone leave no gaps, and then
  `EndToEnd.NoResultLostWithoutGaps` asks nothing.
- A repair holds the lock that sends and ack handling take, as flushOutbox does; the chunking loops do not
  take it.
- Partial assemblies do not expire in the middle of a transfer in the theorems about whole transfers;
  the stores themselves are proved with expiry.
- In `Dedupe` arrivals and acks are handled by one goroutine. How long a job's write may trail the clock
  reading it uses, and a dispatch its handler's, are parameters of the bounds.
- JSON and SHA-256 are functions passed as parameters. Round-trip laws and collision-freedom are
  assumed only where a contract says so. Base64 (section 4 of RFC 4648) appears as the decoded bytes,
  or nothing for malformed text.
- Clocks, what an exchange with the network came to, which writes fail, and the result of executing a
  request are parameters.

## Where code and intention part

- `ResultTransfer.SqliteLosesRecutResult`: SQLite's result reassembly has no restart at chunk 0. A
  leftover of another cut makes it discard a complete run, whose last ack then releases the result.
  `ResultTransfer.SqliteRunYields` gives the exact condition under which a run yields.
- `PollPayload.NoIdTwice`: the handler reads the clock twice, and a transfer whose lease ends between
  the readings may be carried twice by one response; `PollPayload.CarriedTwice` is such a queue.
  `Rebuild.RepairedOnce` is the same for a repair.
- `LosingRun.RepairMayLose`: a repair wipes chunks that were queued and not sent, and leases only a batch
  of results. When it meets a chunking loop whose result it cannot lease, the ack of the last chunk
  releases a result the listener never had. `RepairRace.RepairMeetsLoop` is the exact condition.
- `Dedupe.SharpBound`: a lease of ttl seconds keeps a duplicate away only for more than ttl - 1 seconds,
  less the delays between clock readings and what is done with them.
- `Outbox.SqliteOutbox.SetWSLastReceivedSeq`: on a fresh scope SQLite stores a negative number that Redis
  would store as 0. No caller passes one.

## Model

| member | source | states |
|---|---|---|
| `Chunking.ChunkContents` | internal/transport/chunks.go:85-119 | for any payload and any integer chunk size and index: a chunk is produced iff the size is positive and 0 <= index < total, and it then carries exactly its slice, index, total, checksum and full size |
| `Chunking.ChunkSizes` | internal/transport/chunks.go:98-107 | every chunk but the last is full, none is longer, and none is empty unless the payload is |
| `Chunking.JoinFirst` | internal/transport/chunks.go:98-107 | the first k chunks, joined, are the payload up to cut k |
| `Chunking.JoinSplit` | internal/transport/chunks.go:85-119 | chunks 0..total-1 of any payload join to that payload (split then join is the identity) |
| `Chunking.ChunkedTotal` | internal/transport/chunks.go:76-82 | a payload that needs chunking takes at least two chunks |
| `Reassembly.SqliteChunks.StoreInboundChunk` | internal/store/sqlite_chunks.go:14-126 | over the stored, expiring rows: state, receipt and released request are those of the reassembly machine AcceptRequest; only this transfer changes; its deadline is refreshed when its state changes |
| `Reassembly.SqliteChunks.StoreInboundResultChunk` | internal/store/sqlite_chunks.go:128-227 | the same for result chunks against AcceptResult in its SQLite form (no restart at chunk 0) |
| `Reassembly.SqliteChunks.ResetInboundChunk` | internal/store/sqlite_chunks.go:312-337 | the partial assembly is gone and the receipt asks for chunk 0 again |
| `Reassembly.SqliteChunks.DeleteChunkReceipt` | internal/store/sqlite_chunks.go:254-260 | exactly the receipts of the named transfer disappear |
| `Reassembly.SqliteChunks.ApplyChunkReceipt` | internal/store/sqlite_chunks.go:262-279 | the cursor of the transfer is the receipt's next index, or 0 after a reset; other cursors stay |
| `Reassembly.RedisChunks.StoreInboundChunk` | internal/store/redis_chunks.go:22-121 | state, receipt and released request are those of AcceptRequest in its Redis form |
| `Reassembly.RedisChunks.StoreInboundResultChunk` | internal/store/redis_chunks.go:123-213 | state, result and failure are those of AcceptResult in its Redis form, restart at chunk 0 included |
| `Reassembly.RedisChunks.ResetInboundChunk` | internal/store/redis_chunks.go:289-306 | the partial assembly is gone and the receipt asks for chunk 0 again |
| `Reassembly.RedisChunks.ApplyChunkReceipt` | internal/store/redis_chunks.go:250-261 | the cursor of the transfer is the receipt's next index, or 0 after a reset; other cursors stay |
| `Reassembly.PrefixGrows` | internal/store/redis_chunks.go:70-90 | appending piece i to the first i pieces gives the first i + 1 pieces |
| `RequestTransfer.HonestStep` | internal/store/redis_chunks.go:33-120 | what a chunk of the transfer does to a buffer holding a prefix of it, case by case on its index; the buffer is a prefix again |
| `RequestTransfer.BufferIsPrefix` | internal/store/redis_chunks.go:33-120 | after any sequence of chunk arrivals, in any order, repeated, with resets between, the buffer is the payload prefix of length min(nextIndex * chunkSize, size) |
| `RequestTransfer.ReleaseIsIntact` | internal/store/redis_chunks.go:92-120 | from any buffer at all, with a collision-free hash, a request is released only if it is the original request |
| `RequestTransfer.RoundDecreases` | internal/server/handlers.go:377-406 | from any recoverable state a loss-free round of chunk, receipt, cursor takes exactly one off the number of rounds needed, or releases the request |
| `RequestTransfer.RoundsBound` | internal/server/handlers.go:377-406 | that number is at most total + 1 for a buffer that is a prefix or belongs to another transfer, and at most 2 * total for one with arbitrary bytes |
| `RequestTransfer.Stabilises` | internal/server/handlers.go:488-503 | after k loss-free rounds the request has been released, once and intact, iff k has reached that number |
| `RequestTransfer.StaysDone` | internal/server/handlers.go:387-393 | a cursor at the total sends nothing more, for ever |
| `ResultTransfer.RedisRedeliveryHarmless` | internal/store/redis_chunks.go:123-213 | on Redis a second delivery of any chunk changes nothing, whatever is stored |
| `ResultTransfer.SqliteRedeliveryHarmless` | internal/store/sqlite_chunks.go:128-227 | on SQLite this fails in exactly one case: chunk 0 of a longer transfer that conflicts with the stored one |
| `ResultTransfer.HonestStep` | internal/store/redis_chunks.go:123-213 | what one chunk of a result transfer does to a buffer holding a prefix of it; the result appears exactly with the last chunk in turn |
| `ResultTransfer.RedisRunYields` | internal/store/redis_chunks.go:139-150 | on Redis a complete run of chunks yields the result whatever state an earlier transfer left |
| `ResultTransfer.SqliteRunYields` | internal/store/sqlite_chunks.go:149-190 | on SQLite a complete run over a stored state yields a result iff that state does not conflict and its bytes complete to bytes with the right size, checksum and parse |
| `ResultTransfer.SqliteLosesRecutResult` | internal/store/sqlite_chunks.go:149-160 | a concrete loss: after one chunk of another cut of the same result, SQLite discards a whole run that Redis delivers |
| `ResultTransfer.RunProgress` | internal/store/redis_chunks.go:123-213 | over a stream of contiguous runs each starting at chunk 0, the buffer follows the stream and the result appears with each last chunk |
| `ResultTransfer.SameYields` | internal/store/sqlite_chunks.go:128-227 | on every such stream Redis and SQLite yield the same results at the same points |
| `OutboxLog.RunShape` | internal/store/ws_outbox_sqlite.go:120-152 | a listing is consecutive stored entries and ends at the limit or at a missing number |
| `OutboxLog.RunIs` | internal/store/ws_outbox_sqlite.go:120-152 | and it is the only sequence like that |
| `OutboxLog.GapIff` | internal/store/ws_outbox_sqlite.go:132-148 | a gap is reported iff one of the next limit numbers is missing below a stored one |
| `OutboxLog.UptoMembers` | internal/store/ws_outbox_sqlite.go:154-200 | an ack returns exactly the stored entries numbered up to it |
| `OutboxLog.UptoAscends` | internal/store/ws_outbox_sqlite.go:165-170 | in ascending order |
| `OutboxLog.AcksReturnEachEntryOnce` | internal/store/ws_outbox_redis.go:144-186 | for any acks (repeated, regressing, too large) between any appends: all that was returned, concatenated, is the log up to the largest effective ack, each entry once; with what is still stored it is the whole log |
| `ResultNames.EachResultNamedOnce` | internal/poller/websocket.go:532-558 | queue any results side by side, with other entries between, and let any acks come: all acks together hand an id to AckResults exactly as often as its result was queued, less the times its last entry is still stored |
| `ResultNames.InterleavedNames` | internal/poller/ws_events.go:44-62 | however the entries of several results are interleaved, together they name each result as often as it was queued |
| `OutboxLog.WindowAck` | internal/store/ws_outbox_sqlite.go:154-200 | one ack returns exactly the part of the log between the old and the new bound |
| `Outbox.SqliteOutbox.constructor` | internal/store/ws_outbox_sqlite.go:202-220 | a scope nobody wrote to reads as the empty log |
| `Outbox.SqliteOutbox.GetWSSequenceState` | internal/store/ws_outbox_sqlite.go:202-220 | an absent row reads as counter 0 and cursor 0 |
| `Outbox.SqliteOutbox.NextWSOutboundSeq` | internal/store/ws_outbox_sqlite.go:12-50 | a fresh number is used up and nothing is stored under it |
| `Outbox.SqliteOutbox.EnqueueWSOutbox` | internal/store/ws_outbox_sqlite.go:52-66 | the entry is stored under the given number, over any older one |
| `Outbox.SqliteOutbox.AppendWSOutbox` | internal/store/ws_outbox_sqlite.go:68-118 | the entry is stored under the next number, which is returned |
| `Outbox.SqliteOutbox.ListWSOutbox` | internal/store/ws_outbox_sqlite.go:120-152 | the row loop over expectedSeq returns the abstract listing, gap reports included |
| `Outbox.SqliteOutbox.AckWSOutboxThrough` | internal/store/ws_outbox_sqlite.go:154-200 | the returned rows are the stored entries up to the ack in order; exactly the ones above stay |
| `Outbox.SqliteOutbox.SetWSLastReceivedSeq` | internal/store/ws_outbox_sqlite.go:222-239 | a stored receive cursor never moves back; an absent row takes the number as given, a negative one too, and otherwise the log moves on |
| `Outbox.SqliteOutbox.ResetWSOutbox` | internal/store/ws_outbox_sqlite.go:241-270 | the log is empty and counts on from the given number; the receive cursor stays |
| `Outbox.RedisOutbox.GetWSSequenceState` | internal/store/ws_outbox_redis.go:188-205 | absent hash fields read as 0 |
| `Outbox.RedisOutbox.NextWSOutboundSeq` | internal/store/ws_outbox_redis.go:47-55 | a fresh number is used up and nothing is stored under it |
| `Outbox.RedisOutbox.EnqueueWSOutbox` | internal/store/ws_outbox_redis.go:57-74 | index member and payload hash together represent the stored entry; a coherent pair stays coherent |
| `Outbox.RedisOutbox.AppendWSOutbox` | internal/store/ws_outbox_redis.go:22-45 | the script stores the entry under the next number |
| `Outbox.RedisOutbox.ListWSOutbox` | internal/store/ws_outbox_redis.go:101-142 | on a coherent pair the abstract listing; in general a gap iff some member is out of sequence or lost its payload |
| `Outbox.RedisOutbox.AckWSOutboxThrough` | internal/store/ws_outbox_redis.go:144-186 | for any index and payloads: the members up to the ack that still have a payload are returned in order, and all of those members and payloads go; a coherent pair answers as the log and stays coherent |
| `Outbox.RedisOutbox.SetWSLastReceivedSeq` | internal/store/ws_outbox_redis.go:207-223 | the receive cursor never moves back |
| `Outbox.RedisOutbox.ResetWSOutbox` | internal/store/ws_outbox_redis.go:225-246 | whatever is stored, every member with its payload is gone, the counter is set and the receive cursor stays; a coherent pair becomes the empty log |
| `SortedRows.UptoRows` | internal/store/ws_outbox_sqlite.go:160-175 | the rows of a primary-key table up to a key are the numbered enumeration of the log |
| `SortedRows.DeleteRows` | internal/store/ws_outbox_sqlite.go:185-199 | deleting the rows up to a key leaves exactly the entries above it |
| `Outbox.ScanMeets` | internal/store/ws_outbox_redis.go:115-140 | the Redis listing loop finds a gap iff an entry is out of place, and on a coherent pair equals the abstract listing |
| `OutboxLockstep.CallRedis` | internal/store/ws_outbox_redis.go:47-246 | any call on the Redis outbox answers and moves on as the abstract log does |
| `OutboxLockstep.CallSqlite` | internal/store/ws_outbox_sqlite.go:12-270 | any call on the SQLite outbox answers and moves on as the abstract log does |
| `OutboxLockstep.Drive` | internal/store/ws_outbox_redis.go:47-246 | for every sequence of calls with positive numbers to enqueue under, non-negative receive cursors and positive page sizes, from related states, the two backends give the same answers |
| `Protocol.InvStep` | internal/server/websocket.go:286-361 | every step (append, wasted number, lost entry, connect, send, receive, save, ack, drop, repair) keeps the protocol invariant |
| `Protocol.InvRun` | internal/server/websocket.go:286-361 | so every run does; in particular acked <= received <= next in all of them |
| `Protocol.InOrder` | internal/server/websocket.go:334-343 | the next message on a connection is always number lastReceivedSeq + 1: the duplicate branch and the out-of-order branch are unreachable |
| `Protocol.RemovalIsSafe` | internal/server/websocket.go:351-358 | an entry leaves the outbox only if the receiver handled that very message and had persisted its number, across reconnects and repairs |
| `Protocol.RepairIsAhead` | internal/poller/websocket.go:407-410 | a repair restarts at a number at least as large as the receiver's cursor, every ack under way and every message in flight |
| `ProtocolPrefix.NoRepair` | internal/server/websocket.go:246-262 | an outbox written only by appends never reports a gap, so no repair runs |
| `ProtocolPrefix.CollapseIsPrefix` | internal/poller/websocket.go:299-323 | handled messages taken from the log in order, repeats collapsed, are a prefix of it |
| `ProtocolPrefix.HandledIsPrefix` | internal/poller/websocket.go:299-323 | in every run without a repair, wasted numbers and lost entries included: the handled messages, crash repeats collapsed, are a prefix of the appended log, at most one ahead of the cursor; acked <= received <= next |
| `ProtocolFuture.AfterLose` | internal/store/ws_outbox_redis.go:115-140 | an entry that is lost takes everything after it out of reach, and changes nothing else of what is still to be handled |
| `ProtocolFuture.AfterReceive` | internal/server/websocket.go:334-350 | receiving takes exactly the first of the messages still to be handled |
| `ProtocolFuture.AfterDrop` | internal/server/websocket.go:129-142 | after a drop the messages still to be handled are the old ones, preceded by the one whose number was not persisted |
| `ProtocolFuture.AfterRepair` | internal/poller/websocket.go:407-410 | a repair leaves only what is already in flight to be handled |
| `ListenerInbound.HandleTwice` | internal/server/websocket.go:363-390 | a message handled twice in a row leaves the listener as one handling does |
| `ListenerInbound.SoundHandle` | internal/server/handlers.go:427-445 | on SQLite, chunks of fixed plans keep every partial assembly a prefix of its plan |
| `ListenerInbound.HandleAllAppend` | internal/server/websocket.go:363-390 | a queue of messages stays safe when one more is added iff that one's ack releases only what will be stored by then |
| `Streams.StreamAdvances` | internal/poller/ws_events.go:44-62 | a listener that holds the chunks so far, or the result, holds one more after the next chunk, and the result after the last |
| `Streams.TwinKeeps` | internal/store/redis_chunks.go:139-150 | the next chunk of one cutting of a result leaves another cutting of it where it was, on SQLite, or on Redis with two chunks |
| `EndToEnd.ChunkQueued` | internal/poller/ws_events.go:44-62 | queueing the next chunk of a result, reference id only on the last, keeps every future ack safe |
| `EndToEnd.KeepWipe` | internal/poller/websocket.go:407-410 | the reset of a repair keeps the invariant when the loops it meets have all their chunks on the connection |
| `EndToEnd.KeepRefill` | internal/poller/websocket.go:431-446 | so does leasing what is to be queued again |
| `EndToEnd.KeepRefillNext` | internal/poller/websocket.go:441-476 | and queueing it, entry by entry, with the dispatcher's loops running beside it |
| `EndToEnd.AckDeletesOnlyStored` | internal/poller/websocket.go:532-558 | the next ack deletes pending results only for ids the listener has stored |
| `EndToEnd.InvStep` | internal/poller/websocket.go:391-479 | every step of the whole system, the repair's single steps included, keeps the end-to-end invariant |
| `EndToEnd.NoResultLost` | internal/poller/websocket.go:391-479 | in every run with drops, crash redelivery, resumes, lost entries, gap repairs that lease and queue again, and lossy polls, in which no repair does harm to a loop it meets: every result ever pushed is pending on the sender or stored by the listener, and the next ack releases only stored ones |
| `EndToEnd.WholeStaysWhole` | internal/server/websocket.go:246-262 | while every number handed out gets its entry and keeps it until it is acknowledged, no step of the system is a repair |
| `EndToEnd.NoResultLostWithoutGaps` | internal/poller/websocket.go:532-558 | in every run in which every number handed out gets its entry and keeps it, as appends guarantee, no result is lost, with nothing asked of repairs |
| `RepairRace.MixedSafelyIff` | internal/poller/websocket.go:431-446 | a loop with chunks still to queue and a repair that queues the result again, or does not: every order they can be queued in is safe iff the listener will have the loop's earlier chunks, and a repeated result on Redis has only two |
| `RepairRace.LeasedIff` | internal/store/sqlite.go:828-878 | a repair leases a pending result iff it is free and fewer than a batch of free ones are before it |
| `RepairRace.RepairMeetsLoop` | internal/poller/websocket.go:404-446 | the exact condition over what the sender has before the repair: no order of loop and repair releases the result too early iff every chunk queued so far was sent (its number is at most lastSentSeq), and on Redis, if the repair leases the result, it has two chunks |
| `RepairRace.RefillNextQueues` | internal/poller/websocket.go:441-476 | a step of a refill queues the first entry of what is left and leaves the others |
| `RepairRace.RefillIsRebuild` | internal/poller/websocket.go:431-479 | the entries of a refill are those `Rebuild` proves of rebuildSenderWSOutbox: the leased results in their pieces, then states and receipts |
| `LosingRun.RepairMayLose` | internal/poller/websocket.go:404-479 | a run of the whole system in which a repair between two chunks of a result cannot lease it again, another pending result filling the batch, and the result is lost for good |
| `LosingRun.StrayLastChunk` | internal/server/handlers.go:427-445 | why: the last chunk alone is discarded, yet its ack releases the result |
| `WsSession.OneEntryNamesTheResult` | internal/poller/ws_events.go:44-62 | of all entries of a result exactly the last one carries its id |
| `WsSession.QueueSenderResultWS` | internal/poller/ws_events.go:20-64 | the loop appends the result, or all its chunks in order, after what was stored |
| `WsSession.AppendAllReset` | internal/poller/websocket.go:431-435 | appending n entries after a reset at s fills exactly s+1..s+n |
| `WsSession.Session.constructor` | internal/server/websocket.go:129-142 | the handshake sends after the peer's durable cursor and receives after our own |
| `WsSession.Session.SendEntries` | internal/server/websocket.go:264-271 | a batch is written in order until the connection breaks; lastSentSeq counts exactly what was written |
| `WsSession.Session.Rebuild` | internal/poller/websocket.go:431-479 | the outbox is reset at lastSentSeq and filled with the rebuilt entries |
| `WsSession.Session.FlushOutbox` | internal/server/websocket.go:235-273 | for any stored entries numbered up to the counter: at most one repair, after all whole batches before the gap; the messages written are exactly those the specification names, numbered on without hole or repeat over all 64-entry batches, a prefix of them if the connection breaks, and otherwise nothing stays stored above lastSentSeq |
| `WsSession.Session.Receive` | internal/server/websocket.go:334-361 | an old number is only acked, a number out of order ends the session, the next number is handled, persisted and acked, in that order; a failing handler or a failing cursor write ends the session with what came before it done and nothing after |
| `WsSession.PageOfFollowing` | internal/server/websocket.go:246-262 | a page of 64 is the next run of entries, and a gap is seen only inside the last page |
| `WsSession.Rebuilt` | internal/poller/websocket.go:431-479 | the rebuilt outbox holds exactly afterSeq+1..next and flushes completely |
| `SessionRuns.FlushIsARun` | internal/server/websocket.go:235-273 | a flush, whole or cut short anywhere, is a run of protocol steps: sends, and perhaps one repair with its appends, after the whole batches |
| `SessionRuns.FlushRuns` | internal/server/websocket.go:235-273 | whatever FlushOutbox does, the protocol can do, and its state afterwards is the session's: same outbox, same lastSentSeq, exactly what was written in flight, or the connection down if a write failed; so all run theorems apply |
| `SessionRuns.ReceiveRuns` | internal/server/websocket.go:334-361 | whatever Receive does with the next message, the protocol can do, and its state afterwards is the session's: same cursor, acks and handled messages; the connection is down exactly when the turn ends the session, by a number out of order, a failing handler or a failing cursor write |
| `RequestLedger.CleanDo` | internal/store/sqlite.go:522-750 | every operation keeps: a queued request is in its own peer's queue once, known, not completed, without a result |
| `RequestLedger.QueueAfter` | internal/store/sqlite.go:522-750 | what each operation does to each peer's queue, and that rows and their peers persist |
| `RequestLedger.QueueIsFilteredHistory` | internal/store/sqlite.go:522-750 | in every run with fresh ids a peer's queue is its enqueue history without the cleared and the answered requests, in order and without repeats; nothing completed is queued |
| `RequestLedger.NeverLeasedAgain` | internal/store/sqlite.go:559-614 | whatever states arrive later, a request that was cleared or has a result is never leased |
| `RequestLedger.LeaseRoundsDrain` | internal/store/runtime_redis.go:27-83 | k leases at one instant hand out exactly the first k * batch eligible requests in FIFO order, each once |
| `RequestLedger.DrainedIff` | internal/store/runtime_redis.go:27-83 | and have handed out all n of them iff k >= ceil(n / batch) |
| `RequestLedger.LeaseTouchesOnlyEligible` | internal/store/runtime_redis.go:44-75 | a lease changes no request whose lease still runs or that is completed or of another peer |
| `RequestQueue.SqliteQueue.EnqueueRequest` | internal/store/sqlite.go:522-557 | table rows represent the ledger with the request at the end of its queue |
| `RequestQueue.SqliteQueue.LeaseRequests` | internal/store/sqlite.go:559-614 | the row loop returns and marks exactly the first batchSize eligible requests |
| `RequestQueue.SqliteQueue.ListActiveLeasedRequests` | internal/store/sqlite.go:616-646 | the first batchSize requests of the queue whose lease runs |
| `RequestQueue.SqliteQueue.ApplyRequestStates` | internal/store/sqlite.go:648-683 | states are applied in order; a completion without a stored result counts as executing |
| `RequestQueue.SqliteQueue.StoreResult` | internal/store/sqlite.go:1041-1072 | result stored, request completed, out of every queue, cursor gone |
| `RequestQueue.SqliteQueue.ClearPeerQueue` | internal/store/sqlite.go:703-750 | exactly the requests still queued are failed and removed; their number is returned |
| `RequestQueue.SqliteQueue.QueueLength` | internal/store/sqlite.go:689-701 | the joined count, which on a clean ledger is the length of the queue |
| `RequestQueue.RedisQueue.EnqueueRequest` | internal/store/queue.go:50-83 | list and hash represent the ledger with the request at the end of its queue |
| `RequestQueue.RedisQueue.LeaseRequests` | internal/store/runtime_redis.go:27-83 | the same answer and rows as the ledger; dead ids are dropped from the list on the way, of which a clean ledger has none |
| `RequestQueue.RedisQueue.ListActiveLeasedRequests` | internal/store/runtime_redis.go:85-113 | the first batchSize requests of the queue whose lease runs |
| `RequestQueue.RedisQueue.ApplyRequestStates` | internal/store/runtime_redis.go:115-151 | as for SQLite, over hashes; ids without a hash are skipped |
| `RequestQueue.RedisQueue.StoreResult` | internal/store/results.go:20-60 | as for SQLite, removing the id from the list of the peer that the hash names |
| `RequestQueue.RedisQueue.ClearPeerQueue` | internal/store/queue.go:91-125 | as for SQLite, over the list |
| `RequestQueue.RedisQueue.QueueLength` | internal/store/queue.go:128-130 | the raw list length is the length of the queue |
| `RequestQueue.LeaseLoopMeets` | internal/store/runtime_redis.go:44-80 | the Redis lease loop, from any point of the list, ends with what the ledger leases |
| `RequestQueue.MirrorStore` | internal/store/results.go:37-51 | removing an id from the one list its hash names is removing it everywhere |
| `QueueLockstep.CallBoth` | internal/store/queue.go:50-130 | from a common clean ledger any call gives the same answer from both queues and leads to a common clean ledger |
| `QueueLockstep.Drive` | internal/store/sqlite.go:522-750 | for every sequence of calls with fresh ids, from the empty store on, both backends answer alike, and as the ledger does |
| `PollPayload.AppendPayload` | internal/server/handlers.go:742-775 | one request goes in whole, as the chunk at its cursor, or not at all; the room left counts it |
| `PollPayload.NextOutboundPayload` | internal/server/handlers.go:737-815 | the payload is what the carried ids offer; it fails iff a chunked request meets a chunk size below 1; the leases taken are those of the ledger |
| `PollPayload.AtMostABatch` | internal/server/handlers.go:737-815 | a response carries at most PollBatchSize requests and chunks, one item per id |
| `PollPayload.LeasedIsCarried` | internal/server/handlers.go:752-772 | a leased request is missing from the response iff it is chunked and its cursor lies outside the transfer |
| `PollPayload.WholeOnlyWhenLeased` | internal/server/handlers.go:777-795 | a request in one piece is carried only by the response that leases it |
| `PollPayload.NoIdTwice` | internal/server/handlers.go:777-815 | an id is carried twice iff at some position of the stored queue there is a chunked request, active and among the first batch of active ones at the first reading, whose lease runs out by the second, with fewer eligible requests before it than the continued ones leave room for; at one reading never |
| `PollPayload.CarriedTwice` | internal/server/handlers.go:777-815 | a concrete queue on which one response carries a request twice |
| `Rebuild.RebuildListenerWSOutbox` | internal/server/handlers.go:505-588 | the outbox restarts after afterSeq with exactly the entries of the restored requests; leases are those of the ledger |
| `Rebuild.RepairRestores` | internal/server/handlers.go:505-588 | at most a batch of entries, one per restored request; every request leased before or now is restored unless its transfer is over |
| `Rebuild.RepairedOnce` | internal/server/handlers.go:505-588 | over both clock readings of a repair: a request is queued twice iff the stored queue has such a position for it, whole requests counted too; at one reading never |
| `Rebuild.RebuildSenderWSOutbox` | internal/poller/websocket.go:431-479 | the outbox restarts after afterSeq with all entries of the leased results, the request states and the receipts, in that order |
| `ChunkEvents.QueueNextChunkEvent` | internal/server/handlers.go:377-406 | the chunk at the cursor is appended, nothing when the cursor is outside the transfer |
| `ChunkEvents.ApplySenderChunkReceiptWS` | internal/server/handlers.go:488-503 | the cursor of the receipt's transfer follows it, and the chunk at the request's cursor is queued unless the receipt completes the transfer or the request is gone |
| `ChunkEvents.ApplySenderResultChunkWS` | internal/server/handlers.go:427-445 | a result is stored exactly when its last chunk completes it; a failed assembly is dropped |
| `ChunkEvents.Exchange` | internal/store/sqlite_chunks.go:14-126 | chunk, receipt and cursor over the two stores are one Round of the request transfer |
| `SenderStore.Store.PushResult` | internal/store/sqlite.go:811-826 | a pushed result is pending; one pushed again takes its old place |
| `SenderStore.Store.LeaseResults` | internal/store/sqlite.go:828-878 | the first maxCount results that are pending or whose lease ended are returned and leased, no others |
| `SenderStore.Store.RePushResults` | internal/store/sqlite.go:1015-1035 | exactly the given results lose their lease; a row already gone stays gone |
| `SenderStore.Store.AckResults` | internal/store/sqlite.go:880-907 | results, request states, receipts and partial requests of exactly these ids are gone |
| `SenderStore.Store.ResultPending` | internal/store/sqlite.go:909-912 | whether the id has a row |
| `ResultPolls.DoPollCycleHTTP` | internal/poller/poller.go:124-235 | what a cycle leaves for each outcome of the exchange: given back after a refused or cut-off request, deleted after an answer exactly as acknowledged, else left leased; true is reported only for an answer that was processed to its end |
| `ResultPolls.HandleSenderOutboxAck` | internal/poller/websocket.go:532-558 | an outbox ack deletes exactly the results whose last entry it covers, and the receipts it covers |
| `ResultPolls.StorePolledResults` | internal/server/handlers.go:685-703 | the acknowledged ids are exactly the results that could be stored, and the store holds them |
| `ResultPolls.AnsweredIsStored` | internal/server/handlers.go:685-703 | an acknowledged id has a stored result, is completed and is in no queue |
| `ResultPolls.InvStep` | internal/poller/poller.go:124-255 | every step of the lossy system keeps its invariant |
| `ResultPolls.NoResultLost` | internal/poller/poller.go:124-255 | over any run of polls whose requests and answers may be lost, late or repeated, every pushed result is pending or stored, and nothing else is |
| `ResultPolls.RoundClears` | internal/poller/poller.go:257-262 | an answered round clears exactly the sent results that were stored; the sent ones that failed stay leased, all others are untouched |
| `ResultPolls.LeasedOnce` | internal/store/sqlite.go:828-878 | in every run a leased result is not leased again before its lease ends, unless it is given back or pushed again |
| `Dedupe.HandleIncomingRequest` | internal/poller/poller.go:284-343 | dispatched iff unknown, or neither completed nor pending with its lease over; the state keeps its status for a duplicate and gets a new lease; the same state is queued |
| `Dedupe.Execute` | internal/poller/dispatcher.go:73-120 | afterwards the result is pending and the state completed, and the outbox got executing, the result, completed, in that order |
| `Dedupe.InvHandle` | internal/poller/poller.go:284-343 | reading the clock, the state, the pending result, writing and dispatching, one by one, keep the invariant |
| `Dedupe.InvExecuting` | internal/poller/dispatcher.go:75-82 | so does a job's write of its executing state, however long after the clock reading it uses, failing or not |
| `Dedupe.InvJob` | internal/poller/dispatcher.go:83-120 | so do its other steps: reading the clock, pushing the result, writing the completed state |
| `Dedupe.DispatchesApart` | internal/poller/poller.go:299-309 | in every interleaving with duplicates, clock readings, job writes, failures and restarts: two dispatches of an id without an ack between are more than ttl - 1 seconds apart, less the longest time between a job's clock reading and its write, and, measured between the moments of dispatch, less the longest time a dispatch trails its handler's reading |
| `Dedupe.SharpBound` | internal/store/runtime_redis.go:232-259 | both bounds are sharp for every ttl and delays that fit in it: stored leases are cut to whole seconds, and a run exceeds the bounds by 1 ns |
| `Dedupe.HeldBackForAReason` | internal/poller/poller.go:299-309 | a duplicate not dispatched has its result pending or acknowledged, or an unexpired lease; so does every completed state |

## Left out

- Sockets, HTTP, gorilla/websocket, keepalive, deadlines, backoff, webhooks, execution of the relayed request: I/O; only "a message may be lost with its connection" and "execution yields some result" remain.
- SQL and Redis engines, transactions, pipelines and their partial failures: each operation is its logical effect. Errors of the store appear only where the code goes on after them.
- Cryptography, pairing, API tokens, peers, proxies, the terminal interface, configuration and logging.
- A failure of storing a result after its chunks were assembled: the assembled buffer is already deleted then.
- Two listener sessions of one peer alive at once during a reconnect.
- The reliability check of a proxy, which opens a websocket without the durable cursor.
- The Redis forms of the sender's result table and request states: their order differs after a result is pushed again, and re-pushing is not guarded by the leased status there.
- `UpdateRequestStatus`, the `Dequeue*` and `Pop*` wrappers and `AckRequests`, which the runtime path does not use.
- created_at, updated_at, the async flag, and all other fields of requests and results: a request is an id and a body, so two encodings of one request that differ only in status are the same bytes here.
- 64-bit wrap-around of sequence numbers, times and sizes; a negative batch size, which SQLite reads as no limit.
- Entries other than results and result chunks that the listener handles (states, receipts) change nothing that `EndToEnd` looks at.
- WsSession.Session.FlushOutbox: the entries a repair queues are a parameter there (`Rebuild` says what they are), and entries stored above the counter, which no operation but an enqueue under a free number leaves, are not looked at.
- WsSession.QueueSenderResultWS: asks for a positive chunk size, where the code would divide by zero or cut nothing useful.
- Rebuild.RebuildSenderWSOutbox: the listings of request states and receipts are parameters, in the order the tables give them.
- RequestQueue.RedisQueue.LeaseRequests: asks that the queue holds no id twice, which every reachable queue satisfies.
- ChunkEvents.QueueNextChunkEvent: the cursors read here and those of the request queue are one table in the stores, kept by transfer here and by request id there.
- Dedupe.Execute: the writes always succeed in this method; the interleaved steps let each of them fail.
- Outbox.SqliteOutbox.EnqueueWSOutbox: asks for a number of at least 1; nothing in the repository calls it.
- Outbox.RedisOutbox.EnqueueWSOutbox: asks for a number of at least 1; nothing in the repository calls it.
- WsSession.Session.Rebuild: the entries it queues are a parameter; `Rebuild` says what they are.
- Rebuild.RebuildListenerWSOutbox: when a chunk cannot be cut, only the queue and the failure are described, not what part of the outbox was filled before.
- RequestQueue.SqliteQueue.ClearPeerQueue: asks for a clean ledger, which every reachable one is.
- RequestQueue.RedisQueue.ClearPeerQueue: asks for a clean ledger, which every reachable one is.
- RequestQueue.RedisQueue.StoreResult: asks for a clean ledger, which every reachable one is.
- ChunkEvents.Exchange: over the SQLite store; the Redis reassembly is covered by `Reassembly` and `RequestTransfer`.
- RepairRace.RepairMeetsLoop: one loop and one repair over one connection; any number of them, with drops between, is `EndToEnd.NoResultLost`.
- Failures of AckResults while an answer is processed, which leave the store as a garbled answer does.
