# Knot Resolver: a verified model of its core

A Dafny model of the parts of Knot Resolver whose correctness rests on state kept consistent across many
functions: the daemon's reference-counted query tasks, the TCP receive buffer, the memory pool, the packed
cache values, the ID lists of the bundled LMDB, the TLS output queue, name server selection, the resolution
plan and the codecs for names and keys.  `dafny verify dfyconfig.toml` checks all of it.

## What is proved

**Worker, sessions and tasks** (`Sums`, `WorkerState`, `WorkerMoves`, `WorkerLeads`, `WorkerFrames`,
`WorkerClients`, `WorkerUpstream`, `WorkerOrder`, `MsgIds`, `WorkerFacts`, `WorkerAsserts`, `Worker`).
One object holds every live task and session, the index of outstanding questions, the two maps of upstream TCP
connections and the writes handed to the event loop.  Its methods are the callbacks of `daemon/worker.c`,
`daemon/session.c` and `daemon/io.c`, in imperative form; what the resolver decides and how each system call ends
is arbitrary.  For every run of the event loop, of any length and any nesting of steps, in every state between two
events:

* a task's reference count is exactly the number of places that hold it, no place holds a freed task, and the
  statistics count the live tasks;
* the index of outstanding questions and the leading tasks correspond one to one, and every follower that was
  ever queued is still listed or was stepped by its leader exactly once;
* a message ID in a session's table selects the one task that was sent under it;
* no address is both waiting and connected, and every registered connection is open and goes to that address;
* every unfinished task that no failed upstream write took off a table (`lost`) has somebody left to step it
  (`Attended`): it awaits a datagram on an open UDP session, is queued or listed on an open connection, or follows a
  leader that awaits a datagram itself or was lost; the exception are exactly the tasks still listed by a closed
  connection (`Stranded`), all of them strays of it;
* an upstream connection with queued tasks lists none, an open UDP session is one of those its task waits for,
  and a closed session lists nothing but what was left in it at a failed handshake or registered after it was
  closed (`strays`).

Beside this run-wide invariant, the callbacks say what they achieve: every follower of a leader that ends and
every task on a lost connection, queued or listed, is stepped (`Stepped`, over a log of all steps), expired tasks
are over (`LateOver`).  Some assertions of the source do not hold in every run; `WorkerAsserts` has states that
violate them and the conditions under which they hold.

**Receive buffer** (`WireBuf`).  For any division of a TCP byte stream into reads, the messages submitted to
the worker are a prefix of the messages the stream spells, and all of them while the connection lives and the
buffer is not full.

**Memory pool** (`MempoolState`, `MempoolMoves`, `Mempool`, `MempoolRuns`).  For any sequence of operations the
blocks handed out are in bounds, apart from each other and keep their bytes; a growing buffer carries what was
written into it through every growth and move into the block it becomes; push, any balanced work and pop restore
the pool.

**Cache values** (`CacheList`, `CacheStore`).  Packing and parsing an entry list are inverse; a stored entry is
found again with the same header and data; over any run of writes, of entries and of NSEC parameters, a validated
entry keeps its bytes as long as only unvalidated data is written in its place, all of it while the entry is fresh,
and the database does not overflow.

**LMDB ID lists** (`MidlSort`, `Midl`).  The non-recursive quicksort sorts, permutes, and never overruns its
fixed stack; search, merge, insert and the growing list do what they promise.

**TLS output, name server selection, resolution plan, codecs** (`TlsQueue`, `NsElection`, `Rplan`, `NameCodec`,
`RrKey`, `Base64`, `Base32Hex`).  Where a natural law fails, its exact condition is proved: when the elected address
is the best one, and when a text is the encoding of what it decodes to.  `Prelude` holds what the modules share.

## How the source is read

* C `assert` statements are treated as no-ops; many are proved to hold, as said below.
* A worker task's `refs` include the primary reference of the request.  `Stack` records what the C call stack
  holds while a callback runs; between events it is empty.
* `fuel` bounds how deep steps nest when a leader's end steps its followers; it is an arbitrary argument of
  every event, so every finite nesting is covered.  A step that has used it up ends as at one of the source's own
  limits, by finalising the task.
* Proved never to fail: the assertions at worker.c:499-500, 1089, 1121, 1150 and 1179, those on an empty task
  table in the connect callbacks, the table length checks of the UDP timers (988, 1059) and the duplicate test
  at session.c:175.  Proved dead: the closing branch (825-829) and the already-connected branch (851-866) of
  `on_connect`, and the closing guards at 1240 and 1262.
* Not true in every run, with the state that shows it and the condition under which it holds:
  * worker.c:785, an empty table when a handshake drops its session (`HandshakeLeaves`): iff the table was empty
    before and no queued query had been sent (`OnHandshake`);
  * worker.c:1744, a popped task held by somebody else (`QueueHoldsLast`): unless it is finished, its request let
    go of it and nothing but the queue, whose reference is not released, holds it (`PoppedRefs`);
  * session.c:75-83, an empty session at its release (`LateQuery`): iff none of the tasks left behind or registered
    after the close is still listed (`EmptyUnlessStray`);
  * worker.c:1623, an open handle when a query is stepped, and worker.c:1168 and 617, an open client session when it
    is answered (`LateQuery` too): if the session was open when the query was registered, so that the query is no
    stray of it (`ClientOpen`, `ClientQuery`);
  * session.c:200, the deleted entry is the task's own (`StrikesAnother`): iff the task is still listed on that
    session (`OwnEntry`).

  The model carries on as a build without assertions does, except that a session is not released while it still
  lists such a task.
* The comment above `mdb_midl_search` speaks of the first position greater than the key; the list is
  descending, and the code finds the first position that is not greater.

## Model

| member | source | states |
|---|---|---|
| Workers.Worker.Run | daemon/worker.c:1443-1831 | after any sequence of events with any nesting, the state is `Sound`: exact reference counts, nothing dangling, leaders and index in one-to-one correspondence, message IDs select their task, disjoint connection maps, every task ever made live or freed, every follower listed or stepped once; and it is `Orderly`: every unfinished task outside `lost` has somebody left to step it unless a closed connection still lists it, closed sessions list only `strays`; `lost` grows only by failed writes, `strays` only by queries, connects and handshakes |
| WorkerFacts.InvSound | daemon/worker.c:97-100 | the inductive invariant between events implies those properties in the source's own terms |
| Workers.Worker.Handle | daemon/worker.c:1559-1831 | every single event keeps the invariant and the order and leaves nothing on the stack |
| Workers.Worker.constructor | daemon/worker.c:1970-2006 | a new worker is empty and satisfies both |
| Workers.Worker.TaskRef | daemon/worker.c:97-97 | one more reference, now on the stack; all else unchanged |
| Workers.Worker.TaskUnref | daemon/worker.c:98-100 | one reference less, and the task is freed exactly when none is left; the invariant survives |
| Workers.Worker.Detach | daemon/session.c:182-204 | the task leaves its client's table and the client is forgotten, with the references that go with it |
| Workers.Worker.Complete | daemon/worker.c:493-514 | the primary reference of a finished task is released; neither sessions, followers nor leadership need clean-up there |
| Workers.Worker.OnSend | daemon/worker.c:517-549 | a finished task completes; a failed upstream write deletes exactly the entry under the task's message ID, whoever it lists; an unfinished task whose write succeeded is untouched |
| Workers.Worker.CancelWait | daemon/session.c:182-204 | exactly the task's message ID leaves the upstream table, and the reference with it |
| Workers.Worker.OnTlsSend | daemon/worker.c:517-549 | the completion that runs inside a TLS write keeps the task, ending its tie to the client if it was finished |
| Workers.Worker.SendClient | daemon/worker.c:569-675 | an accepted answer leaves the task settled with its client; only TCP clients can fail, and then nothing changed |
| Workers.Worker.Finalize | daemon/worker.c:1148-1192 | the task is finished and settled with its client or freed; upstream sessions, other tasks and the maps are undisturbed |
| Workers.Worker.Answer | daemon/worker.c:1167-1187 | a finished task is answered or its client dropped; either way it is settled |
| Workers.Worker.Disconnect | daemon/worker.c:1173-1187 | a failing client's table is emptied, its tasks detached and the session closed |
| Workers.Worker.SendUpstream | daemon/worker.c:569-675 | on success the task is listed under a message ID that was free, and nothing else in the table changed; on failure the table is as before |
| MsgIds.FindFree | daemon/worker.c:592-605 | the search over 16-bit IDs from the packet's own ID succeeds iff fewer than 65536 IDs are in use, after at most one probe per used ID, and returns the first free one |
| MsgIds.ProbesDiffer | daemon/worker.c:592-605 | up to 65536 successive probes, wrapping at 16 bits, are all different |
| MsgIds.FullTable | daemon/worker.c:592-605 | a table with 65536 or more 16-bit IDs holds every ID |
| Workers.Worker.FinalizeHead | daemon/session.c:400-407 | the first waiting task leaves the queue and is finished or freed; nothing else of the session changes |
| Workers.Worker.FinalizeEntry | daemon/session.c:409-417 | a listed task leaves the table and is finished or freed; nothing else of the session changes |
| Workers.Worker.FinalizeQueue | daemon/session.c:400-407 | the queue is emptied and every task that was in it is finished or freed |
| Workers.Worker.FinalizeTable | daemon/session.c:409-417 | the table is emptied and every task that was in it is finished or freed |
| Workers.Worker.DropConnection | daemon/worker.c:806-808 | the connection is closed and in neither map |
| Workers.Worker.SendWaiting | daemon/worker.c:795-813 | the queue ends empty: everything was sent and earlier entries kept, or the connection is emptied, closed and forgotten |
| Workers.Worker.SendHead | daemon/worker.c:795-813 | the first queued task is listed in the table, or finished when it could not be sent; earlier entries stay |
| Workers.Worker.KillPending | daemon/worker.c:191-197 | every open UDP session of the task is emptied and closed and the task has none left |
| WorkerUpstream.KilledShut | daemon/session.c:741-756 | killing the latest UDP session of a task empties and closes exactly that session, which listed nothing but the task |
| Workers.Worker.Retransmit | daemon/worker.c:1016-1054 | success opens exactly one new UDP session listing the task, only while fewer than four are open; failure leaves at most one more closed, empty session |
| Workers.Worker.SubreqEnqueue | daemon/worker.c:1128-1146 | the task follows the leader of its question iff there is one, with one more reference; otherwise nothing changes |
| Workers.Worker.SubreqLead | daemon/worker.c:1109-1126 | the task leads its question and is in the index; without a question nothing changes |
| Workers.Worker.SubreqFinalize | daemon/worker.c:1074-1107 | sessions closed, leadership given up, and every follower stepped, whatever those steps do |
| Workers.Worker.NotifyLast | daemon/worker.c:1091-1104 | the last follower leaves the list and is stepped; the leader is undisturbed by that step |
| Workers.Worker.Step | daemon/worker.c:1443-1536 | the step is logged, the invariant kept, and afterwards the task is finished, freed or waiting somewhere |
| Workers.Worker.UdpTaskStep | daemon/worker.c:1194-1235 | the task is finished or freed, or follows the leader of its question, or leads it and awaits a datagram |
| Workers.Worker.TcpTaskStep | daemon/worker.c:1396-1441 | the task is queued or listed on the registered connection to the address, was stepped again, or is finished or freed |
| Workers.Worker.Connect | daemon/worker.c:1396-1441 | on success the task is queued or listed on the registered connection to that address; on failure it is free to be stepped again |
| Workers.Worker.ExistingConnection | daemon/worker.c:1256-1294 | on success the task is in the table of the connection, which stays registered; on failure the task is free again, and the connection stays registered or is closed and forgotten |
| Workers.Worker.MakeConnection | daemon/worker.c:1296-1394 | on success a fresh open connection to the address is registered as waiting and its queue is exactly the task; on failure nothing is registered there and the task is free |
| Workers.Worker.ResolveExec | daemon/worker.c:1784-1831 | a request of the daemon makes one task, steps it, and leaves it engaged or over |
| Workers.Worker.ClientQuery | daemon/worker.c:1559-1630 | a client's query makes one task, steps it, and leaves it engaged or over; it is a stray iff the session was closed before |
| Workers.Worker.UpstreamReply | daemon/worker.c:1559-1630 | an unknown ID changes nothing; a known one steps the task it selects, unless the table held its last reference |
| Workers.Worker.WriteDone | daemon/worker.c:551-567 | exactly that write is gone, and its reference with it; a failed one loses exactly the task listed under the writer's message ID |
| Workers.Worker.UdpTimeout | daemon/worker.c:984-1014 | the timer of any open upstream UDP session steps the task it was opened for, which ends engaged or over |
| Workers.Worker.OnRetransmit | daemon/worker.c:1056-1072 | the timer of any open upstream UDP session changes nothing, leaves one more closed session, or opens exactly one more, never beyond four |
| Workers.Worker.RetryQueue | daemon/session.c:388-398 | every queued task is stepped, the queue is empty, and the rest of the session is unchanged whatever the steps did |
| Workers.Worker.OnConnect | daemon/worker.c:815-935 | a failed or superseded connect steps every queued task and closes the session; a plain successful one, or one whose handshake is agreed at once, ends with an empty queue and the session registered, or dropped; with the handshake under way only the request is gone; with a broken one the queue is empty, the session is in neither map, and its table is empty if it was closed |
| Workers.Worker.ConnectTimeout | daemon/worker.c:937-981 | every queued task is stepped, the session is in neither map and otherwise unchanged |
| Workers.Worker.OnHandshake | daemon/worker.c:686-793 | failure only removes the waiting entry; success empties the queue and leaves the session registered as connected, or dropped, and then its table is empty iff it was before and nothing had been sent; what stays in it are the new strays |
| Workers.Worker.EndTcp | daemon/worker.c:1714-1782 | the session is emptied and closed; every task that an upstream had queued and every one it had listed was stepped |
| Workers.Worker.RetryAll | daemon/worker.c:1742-1779 | queue and table end empty and every queued and every listed task was stepped |
| Workers.Worker.RetryTable | daemon/worker.c:1764-1779 | every task of the table is stepped and the table ends empty, whatever the steps did |
| Workers.Worker.RetryEntry | daemon/worker.c:1764-1779 | one entry leaves the table and its task is stepped |
| Workers.Worker.RetryAndClose | daemon/worker.c:886-889 | every queued task is stepped and the session is closed and empty |
| Workers.Worker.DisconnectAll | daemon/worker.c:1764-1781 | every task of a client is detached and the session closed |
| Workers.Worker.TcpTimeout | daemon/io.c:143-201 | every listed task past the limit is finished or freed; an idle session whose table is empty is closed |
| Workers.Worker.FinalizeExpired | daemon/session.c:419-470 | every listed task past the limit is finished or freed, although finishing one may finish, detach or close others |
| Workers.Worker.CollectExpired | daemon/session.c:424-434 | the list holds every table entry of a late task once, each with a reference, and nothing else |
| Workers.Worker.Expire | daemon/session.c:452-459 | the task is finished after its sessions were closed and its followers stepped |
| Workers.Worker.Accept | daemon/io.c:270-339 | a fresh client session without tasks, and nothing else |
| Workers.Worker.FreeSession | daemon/session.c:72-93 | a closed session without strays or writes is empty and can be released: nothing refers to it any more |
| WorkerOrder.EmptyUnlessStray | daemon/session.c:72-93 | a closed session is empty iff no stray is left in its table |
| WorkerAsserts.LateQuery | daemon/session.c:72-93 | a closed client session without outstanding writes that still lists an unfinished query, in an otherwise orderly state |
| WorkerAsserts.ClientOpen | daemon/worker.c:1168-1172 | at every point of a callback, the client session of an unfinished query is open unless the query is a stray of it |
| WorkerAsserts.PoppedRefs | daemon/worker.c:1742-1746 | a popped task has another holder iff its request still holds it or it is stored elsewhere, which is so for every unfinished one |
| WorkerAsserts.QueueHoldsLast | daemon/worker.c:1742-1746 | a finished task whose only reference is that of the queue |
| WorkerAsserts.OwnEntry | daemon/session.c:182-204 | the entry a failed write deletes is the writer's own iff the writer is still listed there, and there is none iff its message ID is not in use |
| WorkerAsserts.StrikesAnother | daemon/session.c:182-204 | a pending write whose failure would delete the entry of another, unfinished task, in an orderly state without lost tasks |
| WorkerAsserts.HandshakeLeaves | daemon/worker.c:760-789 | an established TLS session with two queued queries, and its table not empty after the first was sent |
| WorkerOrder.OrderlyWell | daemon/worker.c:1443-1831 | what every callback guarantees about tasks and sessions carries the order from one event to the next |
| WorkerOrder.AttendedUnlessStranded | daemon/worker.c:1443-1831 | an unfinished task that was not lost has somebody left to step it iff no closed connection still lists it |
| WorkerOrder.StrandedStray | daemon/worker.c:778-787 | a task still listed by a closed connection is a stray of that connection |
| WireBuf.ReadBack | daemon/session.c:516-572 | parsing the length-prefixed stream of any messages gives those messages back, whatever follows |
| WireBuf.PrefixOfStream | daemon/session.c:516-572 | what was taken from the front of a stream is a prefix of its messages, and all of them when the rest holds none |
| WireBuf.StallsIff | daemon/session.c:544-560 | a full buffer neither yields a message nor an error iff its length prefix is exactly one below the buffer size |
| WireBuf.LogStep | daemon/session.c:711-739 | submitting one message and dropping its bytes keeps the stream equal to log plus buffer |
| WireBuf.Session.Consume | daemon/session.c:495-514 | bytes are taken over iff they sit at the write position and fit; otherwise an error and no change |
| WireBuf.Session.Produce | daemon/session.c:516-572 | a packet is produced iff the buffered bytes hold a complete well-sized message, in its exact place; incomplete and ill-sized input are told apart |
| WireBuf.Session.Discard | daemon/session.c:574-652 | exactly the message and its length prefix leave the front, the rest is kept though it may be moved; a message that does not match empties the buffer with an error |
| WireBuf.Session.Compress | daemon/session.c:660-674 | the unread bytes move to the start unchanged, with overlapping moves handled |
| WireBuf.Session.Process | daemon/session.c:711-739 | the submitted messages continue the log, the count is the accepted ones, and nothing complete is left unless the loop bound was hit, which accepted messages of minimal length exclude |
| WireBuf.Session.TcpRecv | daemon/io.c:203-268 | one read appends to the stream, keeps the log a parse of it, and leaves no complete message behind |
| WireBuf.Session.Receive | daemon/io.c:203-268 | over any split into reads the submitted messages are a prefix of the stream's, and all of them if the connection lives and the buffer never filled |
| WireBuf.MemMove | daemon/session.c:660-674 | an overlapping move copies the original bytes |
| MempoolRuns.Run | contrib/ucw/mempool.h:184-454 | any sequence of pool operations, with starting, opening, growing, writing, appending and closing a buffer as single steps, keeps every block in bounds, disjoint and with its bytes, the saved states restorable, and an open buffer beginning with the text written so far |
| MempoolRuns.InvSound | contrib/ucw/mempool.c:73-446 | the invariant implies in-bounds, aligned, pairwise disjoint blocks, and total size as the sum over all chunks |
| MempoolRuns.Bracket | contrib/ucw/mempool.c:412-446 | push, any operations that do not go below it, then pop: same blocks, same bytes, same allocation state |
| MempoolRuns.Apply | contrib/ucw/mempool.h:184-454 | each operation keeps the blocks below the bracket and continues the text of the open buffer; closing gives a block of that text |
| MempoolRuns.ApplyBuffer | contrib/ucw/mempool.h:260-376 | growing, writing and appending continue the text of the buffer, wherever it moves, and leave all blocks undisturbed |
| MempoolRuns.Compose | contrib/ucw/mempool.h:260-376 | any number of pieces appended to a buffer make a block that holds exactly their concatenation; refused only if that is too long for any block |
| MempoolRuns.CloseBuffer | contrib/ucw/mempool.h:371-376 | the closed block begins with the text, at the place of the buffer |
| Mempools.Mempool.Init | contrib/ucw/mempool.c:73-86 | a static pool starts empty |
| Mempools.Mempool.constructor | contrib/ucw/mempool.c:136-159 | a pool placed in its own first chunk, whose header is never handed out |
| Mempools.Mempool.AllocInternal | contrib/ucw/mempool.c:261-299 | a block at the start of a chunk no live block uses, small or big by the threshold; refused iff over the size limit |
| Mempools.Mempool.Alloc | contrib/ucw/mempool.h:184-194 | an aligned block of the size, apart from all others, whose bytes are kept |
| Mempools.Mempool.AllocNoalign | contrib/ucw/mempool.h:199-209 | as Alloc, without alignment |
| Mempools.Mempool.StartInternal | contrib/ucw/mempool.c:322-329 | an open buffer with room for the size, in a fresh chunk; refused iff over the limit |
| Mempools.Mempool.Start | contrib/ucw/mempool.h:260-271 | an aligned open buffer with room for the size, clear of all blocks |
| Mempools.Mempool.StartNoalign | contrib/ucw/mempool.h:276-285 | as Start, without alignment |
| Mempools.Mempool.GrowInternal | contrib/ucw/mempool.c:344-375 | the buffer has room for the new size and starts with its old bytes, whether it was reallocated or moved |
| Mempools.Mempool.Grow | contrib/ucw/mempool.h:310-313 | as GrowInternal, in place when it fits |
| Mempools.Mempool.Spread | contrib/ucw/mempool.h:327-330 | room for the size after the first bytes, which are kept; refused iff over the limit |
| Mempools.Mempool.AppendBlock | contrib/ucw/mempool.h:349-354 | the bytes follow the first ones of the buffer; refused, with nothing changed, iff over the limit |
| Mempools.Mempool.Fill | contrib/ucw/mempool.h:337-354 | writing inside the open buffer changes those bytes only |
| Mempools.Mempool.End | contrib/ucw/mempool.h:371-376 | the buffer's front becomes a block at the same place |
| Mempools.Mempool.Open | contrib/ucw/mempool.h:406-412 | the most recent block is the open buffer again, at its place, with its size |
| Mempools.Mempool.Realloc | contrib/ucw/mempool.h:429-435 | the most recent block has the new size and its old bytes up to the smaller size; the others are undisturbed |
| Mempools.Mempool.Write | contrib/ucw/mempool.c:456-469 | writing inside one block changes no other block |
| Mempools.Mempool.Save | contrib/ucw/mempool.h:450-454 | the current state is recorded |
| Mempools.Mempool.Push | contrib/ucw/mempool.c:432-439 | the state before the push is recorded inside the pool itself |
| Mempools.Mempool.Restore | contrib/ucw/mempool.c:412-429 | back to any saved state: later blocks are gone, earlier ones keep their bytes |
| Mempools.Mempool.Pop | contrib/ucw/mempool.c:442-446 | back to the latest saved state, keeping earlier bytes |
| Mempools.Mempool.Shrink | contrib/ucw/mempool.c:248-258 | unused chunks go until the next one would pass below the minimum; blocks are undisturbed |
| Mempools.Mempool.Flush | contrib/ucw/mempool.c:193-209 | only the pool's own chunk is left in use |
| Mempools.Mempool.Stats | contrib/ucw/mempool.c:212-239 | the counts of the three chains, which hold every chunk, and a used size between zero and the total |
| MempoolMoves.CarveInv | contrib/ucw/mempool.h:184-209 | carving the next block out of the current chunk keeps all blocks apart |
| MempoolMoves.RewindInv | contrib/ucw/mempool.c:412-429 | rewinding to a saved state keeps the invariant for the blocks of that time |
| CacheList.ParseRoundTrip | lib/cache/entry_list.c:51-119 | parsing a packed value gives exactly the slots that were packed |
| CacheList.ListParse | lib/cache/entry_list.c:51-119 | the parsing loop computes the parse function, errors included |
| CacheList.ListMemcpy | lib/cache/entry_list.c:28-49 | header flags and every given slot are in place, at even offsets, in a value of the computed size |
| CacheList.EntryHLen | lib/cache/entry_list.c:124-152 | the length of an entry at any position, or an error when it runs over the end |
| CacheList.EntryDelimits | lib/cache/entry_list.c:124-152 | reading back the length of a stored entry finds where it ends |
| CacheList.RawDelimits | lib/cache/impl.h:297-303 | walking the stored records by their lengths ends exactly after the last |
| CacheList.SetDelimits | lib/cache/impl.h:292-303 | the size computed from stored bytes equals the size of the record set that was stored |
| CacheList.MaterializeRoundTrip | lib/cache/entry_rr.c:24-86 | materialising a dematerialised record set gives it back, with the number of bytes read |
| CacheList.Dematerialize | lib/cache/entry_rr.c:24-46 | the encoding is written in place and nothing around it changes |
| CacheList.HeaderRoundTrip | lib/cache/impl.h:52-60 | an entry header read from stored bytes is the one written |
| CacheStore.SecureOutranks | lib/resolve.h:93-142 | a rank that is not secure is below every secure rank, with or without the authority flag |
| CacheStore.ViewPacked | lib/cache/entry_list.c:51-119 | each parsed slot starts with the bytes packed there and is well-formed again |
| CacheStore.SeekPacked | lib/cache/entry_list.c:161-176 | on a packed list the seek finds nothing iff nothing was packed for the type, else a slot that starts with the packed entry and holds it |
| CacheStore.FilledPacked | lib/cache/entry_list.c:202-292 | filling the space reserved by the splice gives the packing of the old list with one slot replaced |
| CacheStore.Cache.Splice | lib/cache/entry_list.c:178-292 | refused iff a fresh, consistent entry of at least that rank is there and the new one is not secure; a full database is cleared, another error changes nothing; otherwise space is reserved beside the unchanged other slots |
| CacheStore.Cache.Stash | lib/cache/api.c:437-580 | a stored entry replaces its own slot only, and every value of the database stays well-formed |
| CacheStore.Cache.StashNsec | lib/cache/api.c:638-732 | skipped iff the first slot listing the chain is extended by less than an hour; else the chain comes first, followed by the latest other chain, and every entry of the zone is found as before |
| CacheStore.ListedApart | lib/cache/api.c:677-703 | no chain gets listed twice |
| CacheStore.EntryRead | lib/cache/entry_rr.c:96-145 | header, records and signatures, or the packet, are read back as stored |
| CacheStore.StoredFound | lib/cache/entry_list.c:161-176 | after a store the seek finds a slot holding the entry |
| CacheStore.StoredPresent | lib/cache/api.c:201-228 | after a store the consistency check passes and gives the entry's header |
| CacheStore.Run | lib/cache/entry_list.c:202-292 | over any writes of entries that may not displace it, and any of NSEC parameters, a present entry keeps its bytes; it is lost only when a write finds the database full and clears it |
| CacheStore.HarmlessStored | lib/cache/entry_list.c:244-262 | a harmless write that is not refused went to another slot |
| CacheStore.SecureStays | lib/cache/entry_list.c:244-262 | a write is harmless to a validated entry unless it puts validated data in its place or comes when it is no longer fresh |
| CacheStore.RunSecure | lib/cache/entry_list.c:244-262 | over any run of writes that put no validated data in its place while it is fresh, a validated entry keeps its bytes unless the database is cleared |
| MidlSort.Sort | contrib/lmdb/midl.c:221-279 | descending, a permutation of the IDs, count and the rest of the array untouched, and the 64-slot stack never overrun |
| MidlSort.Partition | contrib/lmdb/midl.c:245-266 | around a median of three, the two scans stay inside the interval and part it |
| MidlSort.InsertionSort | contrib/lmdb/midl.c:232-240 | the interval is sorted by a loop whose inner bound is the list start: it never leaves the interval because earlier intervals are larger |
| MidlSort.DepthBound | contrib/lmdb/midl.c:223-276 | always pushing the larger part bounds the stack depth by the logarithm of the list |
| MidlSort.PlanParted | contrib/lmdb/midl.c:267-276 | replacing an interval by its two parts keeps the plan whose completion sorts the list |
| Midl.Search | contrib/lmdb/midl.c:34-67 | the first position whose ID is not greater than the key, and so the key itself iff it is listed |
| Midl.InsertionKeepsOrder | contrib/lmdb/midl.c:34-67 | inserting at the found position keeps the list descending |
| Midl.XMerge | contrib/lmdb/midl.c:201-213 | the list becomes the descending merge of both, in place, with equal multiset |
| Midl.ShiftSmaller | contrib/lmdb/midl.c:206-211 | the inner loop, stopped by the sentinel in slot zero, moves exactly the smaller IDs up |
| Midl.Id2Search | contrib/lmdb/midl.c:281-314 | the first position whose key is not below the wanted one |
| Midl.Id2Insert | contrib/lmdb/midl.c:316-345 | duplicate iff the key is there, too big iff full, else the pair is inserted in order and nothing else changes |
| Midl.IdList.constructor | contrib/lmdb/midl.c:104-112 | an empty list with the requested capacity |
| Midl.IdList.Grow | contrib/lmdb/midl.c:131-141 | capacity grows and the contents stay, or a failed allocation changes nothing |
| Midl.IdList.Need | contrib/lmdb/midl.c:143-155 | succeeds iff there was room or memory; then there is room, with unchanged contents |
| Midl.IdList.Append | contrib/lmdb/midl.c:157-169 | the ID is appended iff there was room or memory |
| Midl.IdList.AppendList | contrib/lmdb/midl.c:171-183 | the whole list is appended, or nothing |
| Midl.IdList.AppendRange | contrib/lmdb/midl.c:185-199 | the range is appended downwards, modulo the word size, or nothing |
| Midl.RangeDescends | contrib/lmdb/midl.c:185-199 | the appended range is descending iff the range does not wrap around the word size |
| TlsQueue.Run | daemon/tls.c:100-238 | over any run, bytes sent plus bytes queued are the bytes GnuTLS was told are written, in order |
| TlsQueue.Session.VecPush | daemon/tls.c:115-238 | success takes all bytes; an error takes exactly the part that was written directly; at most one request is queued, holding the unsent rest |
| TlsQueue.CopyUnsent | daemon/tls.c:193-213 | the copied buffer is the concatenation without its first bytes, wherever the cut falls |
| TlsQueue.Session.Progress | daemon/tls.c:115-238 | the event loop sends a part of the first queued request; what was handed over is unchanged |
| TlsQueue.Session.OnWriteComplete | daemon/tls.c:100-108 | one request less is counted and nothing else changes |
| TlsQueue.Input.Pull | daemon/tls.c:81-98 | each pull returns the next bytes of the input, all of them once, and asks for more iff it is used up |
| NsElection.EvalAddrSet | lib/nsrep.c:87-204 | the elected address is enabled and has the returned score; the score is below the timeout limit iff some address is alive; only the elected, due ones are stamped |
| NsElection.FirstAlive | lib/nsrep.c:87-204 | with a losing start, the winner is usable iff any address is |
| NsElection.FirstBound | lib/nsrep.c:87-204 | the winner's score is within the IPv6 favour, per enabled IPv6 address, of the best |
| NsElection.FirstIsBest | lib/nsrep.c:87-204 | the winner is the best iff every enabled IPv6 address that comes within the favour of the best score is followed by one that has it |
| NsElection.FirstDrifts | lib/nsrep.c:87-204 | three IPv6 addresses that violate the condition: the favour adds up and the slowest wins |
| NsElection.Contend | lib/nsrep.c:140-169 | the first place goes to the contender iff it beats the holder; every other place keeps or shifts |
| NsElection.RttCache.UpdateRtt | lib/nsrep.c:386-444 | the score follows the mode and stays in range, the timeout stamp is set exactly when the limit is crossed, other addresses are unaffected |
| NsElection.DeadStaysDead | lib/nsrep.c:386-444 | two dead reports in a row, averaged in either way, put any server over the timeout limit, and further ones keep it there |
| NsElection.OneReport | lib/nsrep.c:386-444 | one dead report suffices iff the server is unknown and the score starts afresh, or its score was bad enough |
| NsElection.UnknownTakesTwo | daemon/worker.c:965-968 | the way the daemon reports it, an unknown server is over the limit after exactly two reports |
| NsElection.SelectSort | lib/nsrep.c:540-555 | scores ascend and pairs of score and address are permuted together |
| Rplan.Plan.Push | lib/rplan.c:151-194 | a fresh query with the next identity at the end of the pending list; creation time of its parent |
| Rplan.Plan.Pop | lib/rplan.c:239-265 | the query moves from pending to resolved, the order of the others kept; unknown queries change nothing |
| Rplan.Plan.Satisfies | lib/rplan.c:267-277 | true iff the question is asked by the query or one of its ancestors |
| Rplan.AskedIff | lib/rplan.c:267-277 | climbing from parent to parent finds a question iff some query on the chain to the root asks it |
| Rplan.Plan.NsResolveAddr | lib/resolve.c:307-353 | an address query is pushed iff a family is left to try and no ancestor of the requester asks it |
| Rplan.RootTime | lib/rplan.c:151-194 | every query carries the creation time of its root |
| Rplan.OneTimeLimit | lib/resolve.c:869-879 | all queries of one request run out of time at the same moment |
| Rplan.NoRepeats | lib/resolve.c:307-353 | a name server address query repeats no question above its requester |
| Rplan.DependenciesBounded | lib/resolve.c:307-353 | a chain of name server address queries is at most twice as long as there are questions |
| NameCodec.Lf2Wire | lib/utils.c:967-1006 | the wire name of the labels if they are valid, an error if not, for every input length; the one length where the 8-bit counter overflows gives the root; the name is within 255 bytes iff the completed form is shorter than that |
| NameCodec.LabelsOfLf | lib/utils.c:967-1006 | splitting the lookup form of a name gives its labels |
| NameCodec.LfOfLabels | lib/utils.c:967-1006 | a form that splits is the lookup form of its labels |
| NameCodec.InvertsPrinter | lib/utils.c:967-1006 | the conversion succeeds with a name iff that name is printed to the input |
| RrKey.U16ToStr | lib/utils.c:85-93 | the fixed-point trick prints exactly the five decimal digits, for all 65536 numbers |
| RrKey.FixedPoint | lib/utils.c:85-93 | one digit is the integer part and the remainder keeps the error below one unit |
| RrKey.DecimalInjective | lib/utils.c:85-93 | different numbers print differently |
| RrKey.Make | lib/utils.c:588-617 | the key is class, lower-case owner, type and the additional number, within the buffer and terminated |
| RrKey.WireInjective | lib/utils.c:588-617 | names without their final zero are still uniquely readable |
| RrKey.KeyInjective | daemon/worker.c:254-259 | two questions share a key iff class, type, additional number and the lower-case owner agree |
| Base64.Encode | contrib/base64.c:84-130 | the encoding of all input lengths, or an error iff input or buffer size is out of range |
| Base64.Decode | contrib/base64.c:162-241 | each error iff its condition, else the decoded bytes; nothing past the given length is written |
| Base64.RoundTrip | contrib/base64.c:84-241 | decoding an encoding gives the input |
| Base64.EncodedSize | contrib/base64.c:84-130 | the encoded size for every input size |
| Base64.EncodesBack | contrib/base64.c:84-241 | a text is the encoding of what it decodes to iff padding stands only at its end and the bits that belong to no byte are zero |
| Base64.AcceptsMore | contrib/base64.c:162-241 | accepted texts that are not: one with padding inside, one with stray bits |
| Base32Hex.Encode | contrib/base32hex.c:209-289 | the encoding of all input lengths, or an error iff input or buffer size is out of range |
| Base32Hex.Decode | contrib/base32hex.c:82-207 | an error iff sizes, alphabet or padding are wrong, else the decoded bytes |
| Base32Hex.RoundTrip | contrib/base32hex.c:82-289 | decoding an encoding gives the input |
| Base32Hex.EncodesBack | contrib/base32hex.c:82-289 | a text is the encoding of what it decodes to iff it has no capitals, padding only at its end and no stray bits |
| Base32Hex.AcceptsMore | contrib/base32hex.c:82-207 | accepted texts that are not: one with a capital, one with stray bits |
| Base32Hex.PaddingSticks | contrib/base32hex.c:82-207 | an accepted text with padding inside, which shortens what follows |

## Left out

- Worker: Lua callbacks, zone import, request throttling, TLS session resumption and statistics other than the task counts.
- Worker: out-of-memory returns (worker.c:1118, 1142, 1805-1812); a failed send to a UDP client is taken to succeed.
- Worker: a task's packet buffer changes only inside a step, after its leadership has ended.
- Worker: queues are popped before the send or the step they are popped for, with the reference held on the stack meanwhile.
- Worker: whether a task past its time limit exists and whether a session is idle are arguments of the timer event; clocks are not modelled.
- Workers.Worker.UpstreamReply: when the table held the last reference the task is freed instead of stepped, as in the source.
- Workers.Worker.FreeSession: a session that still lists a stray is not released, since what the source does with those tasks afterwards is undefined.
- Workers.Worker.Run: the runs leave out that release, for the same reason; all else goes on with the session closed.
- Workers.Worker.Handle: leaves it out likewise.
- WorkerOrder.AttendedUnlessStranded: a task once lost counts as lost for good, also when a later step takes care of it again.
- WireBuf: libknot's parsed size is taken to be the message size; UDP datagrams are covered by produce and discard only.
- WireBuf.Session.Receive: says nothing about a stream after the buffer filled up with a message that can neither complete nor fail; `StallsIff` gives the exact length.
- Mempool: allocation from the system is taken to succeed; the 64-bit wrap of the total size, `mp_delete` and the string helpers are not modelled.
- Mempools.Mempool.Realloc: requires a size within `MP_SIZE_MAX`, which the source does not check on this path.
- Mempools.Mempool.Push: the saved state is kept as a value beside the block that holds it in the source.
- MidlSort.Sort: requires fewer than 2^30 IDs, so that the sum of two positions fits the C `int`.
- Midl.IdList.Need: requires that the new capacity fits 32 bits, which the source does not check.
- Midl.IdList.AppendRange: takes the growth as a size; for ranges of 2^31 IDs and more the source passes it through a C `int`.
- Midl: `mdb_midl_shrink`, `mdb_midl_free` and `mdb_mid2l_append`.
- CacheList: bytes are numbered little-endian; reading past the end of a value reads zeros.
- CacheStore: failing reads of the database, the aggressive cache, serving stale records and the key layout.
- CacheStore.StoredPresent: excludes bogus records and opt-out flags outside packets, which the consistency check itself refuses.
- TlsQueue: completions with an error status, and GnuTLS itself.
- NsElection: random probing and the reputation of whole name servers in `eval_nsrep`, and the score computation before the sort in `kr_nsrep_sort`.
- NsElection.RttCache.UpdateRtt: requires that the measured value plus the largest score fits an unsigned int.
- Rplan: zone cuts, flags inherited from the parent and the wrap of the 32-bit identity; names are taken as already lower-case.
- Rplan.DependenciesBounded: the loop guard looks from the requester's parent upwards, so a query may repeat its own requester's question; hence the factor two.
- RrKey: libknot's name conversion and lower-casing are plain functions here.
- Not modelled at all: DNSSEC validation, the iterator, modules, zone file parsing, the control socket and the configuration language.
