# lswasm: verified models

lswasm is a proxy-wasm host that answers HTTP requests over an epoll loop with a pool of
worker threads, or over LSAPI. This project models its concurrent core, its three codecs and
its response path in Dafny, and proves what they keep. `dafny verify dfyconfig.toml` checks
everything.

## Components

- **The loop and its workers.** `ConnectionIo` holds the shared per-connection object: a class
  with the critical sections of `ConnectionIO`, each equal to a function on its abstract value.
  `Bridge` is the transition system built from those functions: one event-loop thread, any
  number of connections and workers, one step per critical section, system call or write of the
  eventfd (so `setError` is two steps, and the loop can be interleaved between any two of its
  calls). `BridgeInvariant` and `BridgeSteps` show that every step keeps the invariant;
  `BridgeWork` says what the loop leaves alone; `BridgeTheorems` states wake-up, delivery, view
  stability, body delivery and shutdown for every schedule. `BridgeProgress`, `BridgeInput`,
  `BridgeService` and `BridgeReturns` state what is got done: what each event does to a
  connection, that any request can be served from its first byte to the close, and that the loop
  is never stuck. `ThreadPool` does the same for the pool.
- **LSAPI responses.** `LsapiPacket` is the wire format with an independent reader,
  `RespHeaderTable` the header buffer, `LsapiResponse` the packetiser as functions on values
  with the invariant that vectors in memory spell whole packets, `LsapiWriter` the request
  object with its arrays, vectors and header slots.
- **LSAPI requests.** `LsapiRequest` and `LsapiRequestParser` are the parser with its in-place
  byte swapping, `LsapiRequestCodec` is the sender's side and the round trips,
  `LsapiRequestReceive` joins the two, `BodyReader` has the three body readers.
- **MD5.** `Md5Spec` is RFC 1321 as published, one-shot and table-driven; `Md5Transform` and
  `Md5` are the unrolled, incremental code, proved equal to it.
- **HTTP responses.** `HttpText` has the text written and readers for heads, chunks (section
  7.1 of RFC 9112) and whole responses (section 6.3, with its rules for HEAD, CONNECT, 204 and
  304, final status codes and well-formed fields); `Streaming` the state machine and the sink;
  `StreamAccepts` tells from their places alone which streaming calls are accepted.
  `FilterScript` says what becomes of a request, given the host calls that the filter makes in
  each callback (its script) and what the reads of the body return; the script is arbitrary, so
  it stands for any filter, also for one whose calls depend on what it has read; `FilterLaws`
  tells the outcome from the places of the calls in the script.
  `ResponseDriver` is the request handler with its filter phases, which has exactly that
  outcome; `EndToEnd` runs the handler as a worker of the bridge. `HeaderPairs` and
  `HeaderName` are the two header codecs. `Common` and `Endian` hold shared definitions.

## Where the code does less than promised

- Re-encoding an environment list gives back the bytes parsed only if every key and value is
  followed by a NUL: the parser counts the terminators and does not look at them
  (`LsapiRequestCodec.ReencodesIff`, with an example in `UnterminatedIsAccepted`).
- Delivered body bytes stay within the body length only if the bytes left in the buffer behind
  the request packet do: the readers hand out whatever lies there (`BodyReader.Reader.Drain`).
  Whatever they take from the socket is body (`BodyReader.Reader.Run`).
- A header name survives the CGI spelling exactly if it has 1 to 250 characters and no
  underscore (`HeaderName.RoundTripIff`).
- What a finished request has written is the one response that its outcome stands for if and
  only if the filter has kept to what the host does not check (`ResponseDriver.OneResponseIff`):
  no local response behind a stream begun in the request phase (`FilterScript.MixedIff`,
  `MixingRun`; the response phase refuses this); a status from 200 to 599; header names that are
  tokens and values without control characters (`FaultyExamples`); no body, and no stream, for
  HEAD, a successful CONNECT, 204 and 304 (`NoContentExample`, `HeadExample`,
  `NotModifiedExample`); no Transfer-Encoding beside the Content-Length of the host, at most one
  in a stream, and no stream to a client of HTTP/1.0. If one of these fails, the text is no
  response at all, or, with headers that break the lines of the head, not that one.
- Consumed and buffered body bytes add up to `body_bytes_fed_` unless a read has taken the last
  buffered bytes of a body that ended too soon, or failed: `readBodyChunk` removes them before it
  reports that. `BridgeTheorems.BalancedIff` gives the exact condition, `ShortBodyIsLost` a
  schedule, and `BodyIsConserved` the law with the lost bytes counted.

## Model

| member | source | states |
|---|---|---|
| `BridgeTheorems.NoLostWakeup` | src/main.cpp:383-416 | In every reachable state, for any number of connections and any interleaving: a mapped connection with a pending write, finished and drained, or with its write error set, is bound to be looked at (eventfd readable, EPOLLOUT registered, a scan that still visits it, teardown under way, or a worker about to signal). |
| `BridgeTheorems.SilenceMeansServed` | src/main.cpp:336-416 | When the loop waits and the eventfd is zero, a mapped connection whose worker is not between setError's flags and its signal is neither failed nor finished-and-drained, and has EPOLLOUT registered if data is left. |
| `BridgeTheorems.BlockedWriterIsWatched` | src/main.cpp:535-574 | A worker asleep in writeData under a silent waiting loop has EPOLLOUT registered for its connection. |
| `BridgeTheorems.SleepersHaveReason` | src/connection_io.h:100-175 | No notification is lost on the condition variables: the wait predicate of every sleeping worker is false. |
| `BridgeTheorems.DeliveredInOrder` | src/connection_io.h:148-260 | Under every interleaving and every pattern of short sends, the bytes sent are a prefix of all writeData arguments; an orderly close happens only when they are equal and finish was called. |
| `BridgeTheorems.NothingIsLost` | src/connection_io.h:231-248 | Until an error drops it, every produced byte has been sent or is exactly the pending suffix, in every state in which the loop is not closing or advancing this connection. |
| `BridgeTheorems.ViewIsStable` | src/connection_io.h:231-248 | Between pendingWriteData and the matching advanceWrite no sequence of worker steps changes buffer, cursor or the unlocked view. |
| `BridgeTheorems.BodyIsConserved` | src/connection_io.h:72-144 | Bytes consumed, lost by a failed read and still in read_chunk_ add up to body_bytes_fed_, which never exceeds Content-Length; the chunk is that very stretch of the body received. |
| `BridgeTheorems.BalancedIff` | src/connection_io.h:100-144 | Consumed plus buffered bytes equal body_bytes_fed_ if and only if no ready read of the schedule found a non-empty chunk of at most the wanted size, an incomplete body, and the error or end-of-stream flag. |
| `BridgeTheorems.StepDiscards` | src/connection_io.h:118-143 | Such a read loses bytes, and no other step does. |
| `BridgeTheorems.ShortBodyIsLost` | src/connection_io.h:118-143 | A schedule after which three bytes were fed and none is consumed or buffered. |
| `BridgeTheorems.BodyCallsAreExact` | src/main.cpp:757-794 | The onRequestBody calls are consecutive slices of the body; each successful read has exactly min(remaining, BODY_CHUNK_SIZE) bytes; end-of-stream is set on the completing call and no other. |
| `BridgeTheorems.BodyEndsComplete` | src/main.cpp:757-794 | When the loop has consumed Content-Length bytes, the calls concatenate to the first Content-Length body bytes and the last is marked. |
| `BridgeTheorems.NoEmptyRead` | src/main.cpp:784-788 | The branch "no data before completion" is unreachable. |
| `BridgeTheorems.SplitAtFirstBlankLine` | src/main.cpp:455-500 | However recv fragments the stream, it is split at its first blank line into header and body. |
| `BridgeTheorems.MappedOrReleased` | src/main.cpp:277-336 | Every dispatched ConnectionIO is in the connection map or has both error flags set. |
| `BridgeTheorems.StoppedReleasesAll` | src/main.cpp:576-585 | After the shutdown cleanup every wait predicate is true and no worker sleeps. |
| `BridgeProgress.OutputIsSent` | src/main.cpp:535-563 | In every reachable waiting state, EPOLLOUT on a connection with unsent bytes sends the next n of them, for any n that the kernel takes. |
| `BridgeProgress.RoundsAreSent` | src/main.cpp:535-574 | Any number of short sends, one event each, brings the bytes sent forward by their sum, and the loop waits again behind each. |
| `BridgeProgress.DrainedIsUnwatched` | src/main.cpp:563-574 | When all is sent and the worker goes on, EPOLLOUT is no longer registered, and a worker asleep in writeData is awake with its wait predicate true. |
| `BridgeProgress.FinishedIsServed` | src/main.cpp:535-574 | Of a connection whose worker has called finish, one EPOLLOUT event sends all that is left and closes it in good order. |
| `BridgeProgress.HangupCloses` | src/main.cpp:423-427 | EPOLLERR or EPOLLHUP closes the connection and releases its worker. |
| `BridgeProgress.FailedSendCloses` | src/main.cpp:553-561 | So does a send that fails for good. |
| `BridgeProgress.SignalArmsOutput` | src/main.cpp:383-407 | The scan behind a signal registers EPOLLOUT for a connection with unsent bytes that has not failed. |
| `BridgeProgress.SignalDooms` | src/main.cpp:391-401 | The scan marks for closing what is finished and drained, or failed. |
| `BridgeProgress.DoomedIsClosed` | src/main.cpp:408-414 | What is marked is closed, and its worker released. |
| `BridgeInput.HeadIsDispatched` | src/main.cpp:456-515 | However a head of at most MAX_HEADER_SIZE bytes is cut into pieces, the piece that completes it hands the request to the pool, split at its first blank line, with what follows as the body begun; nothing else changes. |
| `BridgeInput.LongHeadCloses` | src/main.cpp:460-471 | A head that is longer closes the connection, and no worker hears of it. |
| `BridgeInput.BodyIsFed` | src/main.cpp:516-531 | However a body is cut, its first Content-Length bytes are fed, a sleeping reader is awake, and EPOLLIN is dropped when they are complete. |
| `BridgeInput.EndArrives` | src/main.cpp:440-454 | The end of the stream reaches a worker that waits for more of the body. |
| `BridgeInput.NothingToFeed` | src/main.cpp:430-532 | EAGAIN, or data behind a complete body, changes nothing for the worker. |
| `BridgeInput.OutputBehindInput` | src/main.cpp:535-563 | Behind the EPOLLIN part of an event, its EPOLLOUT part sends as it does alone. |
| `BridgeService.RequestIsServed` | src/main.cpp:336-577 | Whatever the head of a request, however it is cut, and whatever text its worker writes, an idle server has a run in which the client is sent exactly this text and then the close. |
| `BridgeService.WriteIsTaken` | src/connection_io.h:148-175 | writeData into an empty buffer takes all of the data and signals the loop. |
| `BridgeService.WriteBlocks` | src/connection_io.h:148-175 | writeData into a buffer that is not empty puts the worker to sleep, and nothing else happens. |
| `BridgeService.BodyIsPassedOn` | src/main.cpp:769-793 | Once enough has arrived, a round of the body loop passes the next slice on, marked if it is the last, unless it is a read that loses what it takes. |
| `BridgeService.PrefixIsPassedOn` | src/main.cpp:759-766 | The prefix is passed on first, marked if it is the whole body. |
| `BridgeService.FinishIsSeen` | src/connection_io.h:178-182 | finish sets the flag and signals the loop. |
| `BridgeService.FailureIsSeen` | src/connection_io.h:186-194 | A worker that gives up raises both flags and signals the loop. |
| `BridgeReturns.LoopCanReturn` | src/main.cpp:336-585 | The loop is never stuck: from every reachable state it has moves back to waiting, unless it has stopped. |
| `BridgeReturns.ShutdownCanEnd` | src/main.cpp:578-585 | From every reachable state the server can be stopped, with every connection closed. |
| `BridgeSteps.RunKeepsInv` | src/main.cpp:244-585 | The invariant behind these theorems holds after every schedule of worker and loop steps. |
| `ConnectionIo.ConnectionIO.SetHeader` | src/connection_io.h:72-88 | setHeaderData as a change of the abstract connection: the prefix truncated to Content-Length. |
| `ConnectionIo.ConnectionIO.ReadChunk` | src/connection_io.h:100-144 | The critical section of readBodyChunk: wait predicate, data taken, status. |
| `ConnectionIo.ConnectionIO.Write` | src/connection_io.h:148-175 | The critical section of writeData: only into an empty buffer, nothing after an error. |
| `ConnectionIo.ConnectionIO.FinishResponse` | src/connection_io.h:178-183 | finish sets the flag and signals the eventfd. |
| `ConnectionIo.ConnectionIO.SetError` | src/connection_io.h:186-194 | setError sets both flags, then signals. |
| `ConnectionIo.ConnectionIO.Feed` | src/connection_io.h:202-213 | feedBody appends, counts and notes the end of the stream. |
| `ConnectionIo.ConnectionIO.FeedFailure` | src/connection_io.h:216-220 | feedError sets the read error and nothing else. |
| `ConnectionIo.ConnectionIO.WriteFailure` | src/connection_io.h:223-229 | writeError sets the write error and drops the buffer. |
| `ConnectionIo.ConnectionIO.PendingData` | src/connection_io.h:231-237 | pendingWriteData returns the unsent suffix. |
| `ConnectionIo.ConnectionIO.Advance` | src/connection_io.h:239-248 | advanceWrite moves the cursor and empties the buffer at its end. |
| `ConnectionIo.ConnectionIO.FinishedAndDrained` | src/connection_io.h:257-260 | isFinished: finished with nothing left to send. |
| `ThreadPool.Pool.Submit` | src/thread_pool.h:63-70 | submit appends at the end of the queue, or drops the task after shutdown. |
| `ThreadPool.Pool.BeginShutdown` | src/thread_pool.h:76-82 | shutdown sets stop_ and notifies all, once. |
| `ThreadPool.Pool.Look` | src/thread_pool.h:92-104 | A worker under the lock sleeps, exits or takes the oldest task. |
| `ThreadPool.TasksAreConserved` | src/thread_pool.h:63-104 | Accepted tasks are those dequeued, in order, followed by those queued; those dequeued are running or done, each once. |
| `ThreadPool.SleepersAreNotNeeded` | src/thread_pool.h:63-104 | While some worker sleeps, every queued task has a notify to come or an awake worker. |
| `ThreadPool.QueueIsServed` | src/thread_pool.h:63-104 | A non-empty queue always has an awake or running worker or a notify still to come. |
| `ThreadPool.NobodySleepsAfterShutdown` | src/thread_pool.h:76-86 | After the notify_all of shutdown no worker sleeps, so that the joins can return. |
| `ThreadPool.ShutdownDrains` | src/thread_pool.h:76-104 | When all workers have exited, every accepted task has run exactly once, dequeued first in first out. |
| `ThreadPool.StopIsFinal` | src/thread_pool.h:63-86 | Nothing is accepted after shutdown has begun. |
| `ThreadPool.SubmitIsAccepted` | src/thread_pool.h:63-70 | Before shutdown every submitted task is accepted, behind the others. |
| `ThreadPool.NotifyWakes` | src/thread_pool.h:63-70 | A notify still to come can wake any sleeper. |
| `ThreadPool.OldestIsRun` | src/thread_pool.h:92-104 | A worker that is awake takes the oldest task and runs it to its end. |
| `ThreadPool.ShutdownCanEnd` | src/thread_pool.h:76-104 | From every reachable state a shutdown can end, with every accepted task run and every worker exited. |
| `LsapiWriter.Respond` | src/lsapilib.c:1850-1937 | Any sequence of writes and flushes closed by a finish decodes, by the length-inclusive packet headers, to one RESP_HEADER with the status and header lines, RESP_STREAM payloads of at most 16384 bytes that concatenate to all data in order, and one RESP_END; the connection breaks if and only if a writev of these calls fails. |
| `LsapiWriter.Answer` | src/lsapilib.c:1610-1688 | One request from its begin through status, headers, writes and flushes to the finish: unless a writev fails, the receiver reads from the packets sent the status, the data, and line by line the first thousand headers that fit, trimmed; the request is ready again. |
| `LsapiWriter.OrdinaryIsRead` | src/lsapilib.c:2506-2559 | Of a reply with at most 1000 headers of moderate length, whose names have no colon, the receiver reads exactly the status and the headers, cutting each line at its first colon. |
| `LsapiWriter.AcceptedTell` | src/lsapilib.c:2506-2559 | Whatever headers are appended, the lines kept tell the first thousand that fit, in order. |
| `LsapiWriter.AnswerAll` | src/lsapilib.c:1610-1688 | Any number of requests on one connection: the bytes that the peer receives, one behind the other, are cut back into the replies answered; all of them are answered if and only if no writev fails. |
| `LsapiWriter.QueueIsBounded` | src/lsapilib.c:1500-1506 | Between API calls at most 2 vectors are queued, m_totalLen is their sum, nothing is queued while the headers are open; at most 11 of 16 vectors and 4 of 5 header slots are ever used. |
| `LsapiWriter.Request.Write` | src/lsapilib.c:1850-1937 | LSAPI_Write_r accepts all of the data, behind what was written before, unless the connection is broken, which happens exactly if a writev fails. |
| `LsapiWriter.Request.WriteThrough` | src/lsapilib.c:1890-1936 | The packetising loop keeps the queued vectors equal to whole packets of the data, no queued slot or buffer region being rewritten. |
| `LsapiWriter.Request.Flush` | src/lsapilib.c:2094-2134 | After a successful LSAPI_Flush_r behind the headers the wire is exactly the packets of all data written. |
| `LsapiWriter.Request.FlushRespBuf` | src/lsapilib.c:2070-2091 | Flush_RespBuf_r queues the buffered bytes as one packet and empties the buffer. |
| `LsapiWriter.Request.FinalizeHeaders` | src/lsapilib.c:2479-2503 | LSAPI_FinalizeRespHeaders_r queues the RESP_HEADER packet in the vectors kept free for it. |
| `LsapiWriter.Request.Finish` | src/lsapilib.c:1610-1637 | LSAPI_Finish_r completes the packets with one RESP_END, or a writev of it fails, and leaves the request ready for the next one. |
| `LsapiWriter.Request.Reset` | src/lsapilib.c:1675-1688 | LSAPI_Reset_r gives the initial vectors, buffer and header table. |
| `LsapiWriter.Request.AppendHeader` | src/lsapilib.c:2506-2559 | Appending before the finaliser adds the trimmed header line, ignores it or refuses. |
| `LsapiResponse.QueuedFlows` | src/lsapilib.c:1895-1925 | Queuing one packet keeps the invariant: vectors in memory spell the packets, whose payloads are the data. |
| `LsapiResponse.FinalizedFlows` | src/lsapilib.c:2479-2503 | The finaliser turns the header table into a packet of 16 bytes, 2 per header and the text. |
| `LsapiResponse.FlushedFlows` | src/lsapilib.c:2094-2134 | A complete writev leaves nothing pending and the wire equal to the packets. |
| `LsapiResponse.BufferedFlows` | src/lsapilib.c:1870-1889 | Copying into the response buffer at rest disturbs no queued vector. |
| `LsapiResponse.CompleteDecodes` | src/lsapilib.c:1610-1637 | A finished packet sequence is read back, with its header list. |
| `LsapiPacket.DecodeEncode` | src/lsapidef.h:107-118 | Packets are cut out of the byte stream again by their length-inclusive headers. |
| `LsapiPacket.HeaderRoundTrip` | src/lsapidef.h:160-170 | Count, status, 16-bit lengths and NUL-terminated lines of a RESP_HEADER payload are read back. |
| `RespHeaderTable.Table.Reserve` | src/lsapilib.c:2538-2547 | The growth formula leaves room for len + 1 bytes; capacity stays a multiple of 4096 and never shrinks. |
| `RespHeaderTable.Table.Put` | src/lsapilib.c:2546-2557 | The recorded lengths partition the buffer into the NUL-terminated lines appended. |
| `RespHeaderTable.Table.AppendPair` | src/lsapilib.c:2506-2559 | LSAPI_AppendRespHeader2_r: which pairs are appended trimmed, ignored or refused. |
| `RespHeaderTable.PairIsRead` | src/lsapilib.c:2549-2554 | A line built from a name without a colon is read as that name and its value, both trimmed. |
| `RespHeaderTable.PairOutcome` | src/lsapilib.c:2510-2540 | A pair is appended exactly if the body has not started, fewer than 1000 are there, the trimmed name is not empty and the line has at most 32768 bytes; it is ignored exactly if only line breaks are left of its name. |
| `RespHeaderTable.Table.AppendLine` | src/lsapilib.c:2562-2594 | LSAPI_AppendRespHeader_r, the same for whole lines. |
| `RespHeaderTable.LineOutcome` | src/lsapilib.c:2562-2594 | The same for whole lines. |
| `LsapiRequest.ParseEnv` | src/lsapilib.c:627-661 | parseEnv computes the list specification: entry bounds, non-zero lengths, the four closing NULs, at most 8192 entries. |
| `LsapiRequest.EnvsBounds` | src/lsapilib.c:627-661 | An accepted list has the announced count and ends at most 4 bytes behind the packet. |
| `LsapiRequestParser.FixEndian` | src/lsapilib.c:678-690 | Exactly the nine header integers are byte-swapped in place. |
| `LsapiRequestParser.FixHeaderIndexEndian` | src/lsapilib.c:693-723 | Exactly the present index entries and all unknown headers are swapped; absent entries, the last entry, the padding and every byte outside the tables are untouched. |
| `LsapiRequestParser.ValidateHeaders` | src/lsapilib.c:725-755 | Accepts exactly if every present header ends within the header text. |
| `LsapiRequestParser.ParseRequest` | src/lsapilib.c:1192-1271 | parseRequest with its in-place conversion returns what the packet as received says, in either byte order. |
| `LsapiRequestCodec.EnvsRoundTrip` | src/lsapilib.c:627-661 | parseEnv reads an encoded list back and consumes exactly its encoding. |
| `LsapiRequestCodec.ReencodesIff` | src/lsapilib.c:627-661 | Re-encoding an accepted list gives back the consumed bytes if and only if each key and value is followed by a NUL. |
| `LsapiRequestCodec.UnterminatedIsAccepted` | src/lsapilib.c:641-655 | A concrete accepted list that does not re-encode to its bytes. |
| `LsapiRequestCodec.IndexRead` | src/lsapidef.h:146-150 | The header index is read back from its encoding, in either byte order. |
| `LsapiRequestCodec.UnknownsRead` | src/lsapidef.h:152-158 | The unknown-header table is read back from its encoding. |
| `LsapiRequestCodec.RequestRoundTrip` | src/lsapilib.c:1192-1271 | Every packet whose four offsets lie in it, whose lists have at most 8192 entries and whose headers lie in the header text, in either byte order, parses to the environment lists, offsets, index entries, unknown headers, text and body length it was built from. |
| `LsapiRequestCodec.AcceptedIff` | src/lsapilib.c:1213-1262 | A packet is accepted if and only if its lists, of at most 8192 entries, and its tables are whole, the four offsets lie in it, and every present header ends within the header text as far as 32-bit sums can tell. |
| `LsapiRequestReceive.Receive` | src/lsapilib.c:1192-1271 | The same for parseRequest itself on the buffer it has converted in place. |
| `LsapiRequestReceive.EnvsBeforeTables` | src/lsapilib.c:1229-1238 | Accepted environment texts lie between the fixed header and the tables. |
| `BodyReader.Reader.Refill` | src/lsapilib.c:1718-1737 | readBodyToReqBuf takes no more than is left of the body, and nothing behind it; the buffer then holds the bytes taken and not delivered. |
| `BodyReader.Reader.GetChar` | src/lsapilib.c:1740-1751 | Delivers the next byte; EOF only if the socket had none. |
| `BodyReader.Reader.GetLine` | src/lsapilib.c:1754-1802 | Delivers the next slice, whose only newline is last; ends early only at a newline, a full buffer or when the socket has no more. |
| `BodyReader.Reader.Read` | src/lsapilib.c:1805-1847 | Delivers the next slice, all that was asked for and is left of the body unless the socket failed; -1 only if nothing was delivered. |
| `BodyReader.Reader.Run` | src/lsapilib.c:1718-1847 | Any interleaving of the three readers under any fragmentation delivers consecutive slices, of which none lies behind both the body and the bytes already taken. |
| `BodyReader.Reader.Drain` | src/lsapilib.c:1740-1751 | Delivered bytes stay within the body length exactly if the bytes taken so far do. |
| `BodyReader.Overdelivery` | src/lsapilib.c:1740-1751 | A concrete state whose reader delivers a byte behind a body of length 0. |
| `BodyReader.Reader.ReadBeyond` | src/lsapilib.c:1726-1736 | Once more than the body has been delivered, nothing is read any more. |
| `Md5.CounterAdvances` | src/lsapilib.c:4175-4178 | The two-word counter with its manual carry is 8 times the bytes fed modulo 2^64 after every update. |
| `Md5.CounterTellsLeftover` | src/lsapilib.c:4180-4180 | The counter tells how many bytes are buffered, even after it has wrapped. |
| `Md5.Md5Context.Init` | src/lsapilib.c:4154-4163 | The context of the empty message. |
| `Md5.Md5Context.Update` | src/lsapilib.c:4169-4211 | buf is the fold over the complete blocks and in holds the leftover, after any update. |
| `Md5.Md5Context.PadMessage` | src/lsapilib.c:4223-4246 | Both padding cases give the padding of section 3.1 of RFC 1321. |
| `Md5.Md5Context.Final` | src/lsapilib.c:4218-4257 | The result is the digest of the whole message under sections 3.1 to 3.5 of RFC 1321. |
| `Md5.HashPieces` | src/lsapilib.c:4154-4257 | Every way of splitting a message into updates yields its digest, on hosts of either byte order. |
| `Md5.Md5Context.ProcessBlock` | src/lsapilib.c:4138-4147 | byteReverse and the transform on the buffer, on hosts of either byte order. |
| `Md5Transform.Transform` | src/lsapilib.c:4277-4358 | The unrolled 64 steps equal the table-driven rounds of section 3.4 of RFC 1321 on every state and block. |
| `Md5Transform.MacroIsAux` | src/lsapilib.c:4262-4266 | The rewritten F1 to F4 equal the auxiliary functions F, G, H and I. |
| `Md5Transform.CodeStepIsOp` | src/lsapilib.c:4269-4270 | MD5STEP equals the operation of RFC 1321. |
| `HeaderName.HeaderNameEq` | src/http_utils.h:35-43 | True exactly for names equal up to the case of letters. |
| `HeaderName.CgiName` | src/lsapilib.c:2395-2415 | The key built in the 256-byte array: the prefix and at most 250 converted characters. |
| `HeaderName.HeaderCallback` | src/main.cpp:1040-1071 | The in-place conversion: prefix stripped, hyphens, title case. |
| `HeaderName.NameIsTitleCased` | src/main.cpp:1040-1071 | The name made of a key is the only title-cased spelling of what the key stands for. |
| `HeaderName.KeyIsUpperCase` | src/lsapilib.c:2386-2417 | A key is the prefix and at most 250 characters of the name, with underscores for hyphens and no lower-case letters. |
| `HeaderName.RoundTripIff` | src/main.cpp:1040-1071 | Both conversions give back a name equal to the original if and only if it has 1 to 250 characters and no underscore. |
| `HeaderName.RoundTrip` | src/lsapilib.c:2386-2417 | The same for the three loops run one after the other. |
| `HeaderPairs.Deserialize` | src/http_utils.h:89-122 | The two loops compute the decoder, with its 32-bit size steps and early returns. |
| `HeaderPairs.RoundTrip` | src/http_utils.h:85-88 | Decoding inverts the marshalled format for every list whose marshalled form a 32-bit filter can hold. |
| `HeaderPairs.CutDecodes` | src/http_utils.h:89-122 | Such a list cut anywhere gives the pairs wholly within the cut if the size table is, otherwise the empty list. |
| `HeaderPairs.CompleteIsLongest` | src/http_utils.h:111-121 | Those pairs are the longest leading sublist whose bytes fit. |
| `HeaderPairs.WrappedKey` | src/http_utils.h:112-117 | In a longer string the 32-bit step behind a key of 2^32 - 1 bytes wraps, and the value is read from the start of the key. |
| `HttpText.SerializeHeaders` | src/http_utils.h:71-81 | The loop writes status line, field lines and the empty line. |
| `HttpText.PhrasesAreRegistered` | src/http_utils.h:47-68 | The reason phrases are those registered with their codes, and other codes have none. |
| `HttpText.HeadRoundTrip` | src/http_utils.h:71-81 | A head in front of any text is read back by an independent reader if and only if no header has a CRLF in it or a colon in its name. |
| `HttpText.FramesRead` | src/http_response_sink.h:101-113 | Chunk frames in front of any text are read as their data, under section 7.1 of RFC 9112. |
| `HttpText.StatusRoundTrip` | src/http_utils.h:71-75 | The status code of a status line is read back exactly if it has three digits. |
| `HttpText.ResponseText` | src/http_utils.h:71-81 | Whatever text reads as a response, its fields are well-formed, and with a Content-Length it is that response written out. |
| `HttpText.NumberRoundTrip` | src/http_response_sink.h:103-105 | Decimal and lower-case hexadecimal numerals are read back. |
| `Streaming.StreamDecodes` | src/wasm_module_manager.h:470-530 | After any sequence of calls the wire is empty, or a head with no Content-Length and at least one Transfer-Encoding, all chunked, then exactly the accepted chunks; the terminator is present, once and last, if and only if the state is Finished (given that the accepted head has no CRLF in a header and no colon in a name); `StreamAccepts.AllIsAccepted` says which chunks are accepted. |
| `StreamAccepts.TheirPlacesTell` | src/wasm_module_manager.h:470-530 | Of every sequence of calls, what each is answered follows from its place: whether a call before it has begun the stream, finished it, or spoiled it by asking for another coding; a call out of place changes nothing. |
| `StreamAccepts.AllIsAccepted` | src/wasm_module_manager.h:470-530 | The stream has the headers of the call that begins it and the data of every chunk behind it. |
| `StreamAccepts.StreamIsAccepted` | src/wasm_module_manager.h:470-530 | Headers without another coding, any chunks and a finish make a finished stream with these headers and these chunks, whatever is called behind them. |
| `StreamAccepts.StreamIsRead` | src/http_response_sink.h:42-126 | If such a stream is streamable, the client reads exactly its headers, normalised, and all of its data. |
| `Streaming.FinishedIsOneResponse` | src/http_response_sink.h:42-126 | A finished stream reads as the one response whose body is the accepted data if and only if its status is final, a response of this status to this request has a body that may be chunked, the fields are well-formed, and the filter named the coding at most once; otherwise a head that can be read makes it none. |
| `Streaming.AlwaysFaithful` | src/wasm_module_manager.h:470-530 | The wire is always the accepted head and frames, also after a refused head has set error_. |
| `Streaming.NormalizedFraming` | src/http_response_sink.h:50-80 | Normalised headers frame the body by chunks alone; their codings are those given, or the one added. |
| `Streaming.NormalizedValues` | src/http_response_sink.h:50-80 | Under every name a streamed response has the values given, but no Content-Length and one coding at least. |
| `Streaming.Sink.Normalize` | src/http_response_sink.h:50-80 | The normalising loop refuses exactly the lists with another transfer coding. |
| `Streaming.Sink.SendHeaders` | src/http_response_sink.h:42-93 | What sendHeaders writes, and when it sets error_. |
| `Streaming.Sink.WriteBody` | src/http_response_sink.h:95-114 | writeBody writes one frame, or raw data, or nothing. |
| `Streaming.Sink.FinishBody` | src/http_response_sink.h:116-125 | finishBody writes the terminator for a streamed response. |
| `Streaming.Context.StreamingSendHeaders` | src/wasm_module_manager.h:470-489 | Accepted only in Idle; the state moves only if the sink accepts. |
| `Streaming.Context.StreamingWriteChunk` | src/wasm_module_manager.h:493-510 | Accepted only after the headers; an empty chunk writes nothing. |
| `Streaming.Context.StreamingFinish` | src/wasm_module_manager.h:513-530 | Accepted only after the headers, and once. |
| `ResponseDriver.HandleRequest` | src/main.cpp:723-884 | For every filter script, body and results of reading it, the request is answered as `FilterScript.Result` says: by the first local response captured between callbacks, by the finished stream, by the default response with the headers as the callbacks left them, or by setError. There is exactly one finish or setError; the text of a finish run reads as the response that outcome stands for if and only if the filter has kept to the conditions above. |
| `FilterScript.MixedIff` | src/main.cpp:748-806 | A request is answered by a stream with a local response behind it if and only if the first local response of the filter comes in the request phase, in or after a callback that has begun a stream. |
| `FilterScript.FirstLocal` | src/http_filter.h:122-187 | The callback whose local response counts is the first that sends one. |
| `FilterLaws.LastChangeIsSent` | src/http_filter.h:191-240 | If the filter neither replies nor streams and the body is complete, the default response has the headers of the last change, by its place, that one of the three response callbacks makes. |
| `FilterLaws.DefaultsAreSent` | src/main.cpp:829-831 | Without such a change it has the two default headers. |
| `FilterLaws.RequestLocalIsSent` | src/main.cpp:748-806 | A local response sent in the request phase is the answer: the last of the first callback that sends any. |
| `FilterLaws.ResponseLocalIsSent` | src/main.cpp:840-851 | So it is in the response phase, if nothing has been streamed. |
| `FilterLaws.StreamIsSent` | src/main.cpp:808-866 | A stream begun, filled and finished in any callback of a filter that does not reply is the answer. |
| `FilterLaws.BodyIsRead` | src/main.cpp:757-798 | A body that arrives wholly, in any pieces, makes one callback for each piece and one for the prefix, and then the one for trailers. |
| `FilterLaws.BrokenBodyFails` | src/main.cpp:767-785 | A body that breaks off ends the request in setError, unless a local response has come before. |
| `ResponseDriver.MixingRun` | src/main.cpp:748-754 | A concrete run of the handler on such a script ends in finish, and what it has sent is no response. |
| `ResponseDriver.RunRequestPhase` | src/main.cpp:740-799 | The request phase makes all its callbacks, up to the one that sends a local response or the body read that fails; it fails if and only if a read does before any local response. |
| `ResponseDriver.Filter.RequestBody` | src/main.cpp:757-795 | The body loop makes one callback per chunk read, up to the one that sends a local response. |
| `ResponseDriver.RequestPhaseIs` | src/main.cpp:748-820 | What the handler looks at behind the request phase tells the outcome of the whole request. |
| `ResponseDriver.PhaseIs` | src/main.cpp:838-866 | What the handler looks at behind the response phase tells its outcome. |
| `EndToEnd.ClientReadsOneResponse` | src/main.cpp:723-942 | Under every interleaving and pattern of short sends, a client whose connection was closed in good order has been sent exactly the response of the outcome if and only if the filter has kept to the conditions above; until then a prefix of the text. |
| `EndToEnd.Answer` | src/main.cpp:723-942 | The same for the writeData calls that the handler makes on any script, under every schedule of a worker that makes them and then calls finish; the outcome is that of the script. |
| `EndToEnd.CallsReachClient` | src/connection_io.h:148-260 | The text of a worker's calls reaches the client in order, and wholly before an orderly close. |
| `EndToEnd.WorkIsProduced` | src/connection_io.h:148-183 | What a worker has produced is the text of the calls it has begun; once it has called finish, of all of them. |
| `ResponseDriver.OneResponseIff` | src/main.cpp:800-884 | The same about the text alone, for every outcome: it reads as the response the outcome stands for exactly if the conditions hold, and as none if they do not and the heads sent can be read. |
| `ResponseDriver.MixedIsNoResponse` | src/main.cpp:748-754 | A local response behind a started stream makes the output no response at all, given that the head of the stream can be read. |
| `ResponseDriver.MixedIsNotTheLocal` | src/main.cpp:748-754 | Behind a started stream, whatever its headers, the local response is not what is read. |
| `ResponseDriver.MixedExample` | src/main.cpp:800-806 | The text that such a run leaves, a stream begun and then a local response, is no response. |
| `ResponseDriver.NoContentExample` | src/main.cpp:922-942 | A local response of status 204 with a body is written as it is, and is no response. |
| `ResponseDriver.HeadExample` | src/main.cpp:748-754 | A local response with a body to HEAD is no response, although it is one to GET. |
| `ResponseDriver.NotModifiedExample` | src/http_response_sink.h:116-125 | A stream of status 304 is no response. |
| `ResponseDriver.FaultyExamples` | src/main.cpp:922-942 | The texts of three local responses that the host writes as they are, and that are no response: status 100, a name with a blank behind Transfer-Encoding, an empty name. |
| `ResponseDriver.LocalFraming` | src/main.cpp:922-942 | A local response announces its length once, whatever headers the filter adds; its codings and any faulty headers are those of the filter. |
| `ResponseDriver.LocalValues` | src/main.cpp:922-942 | Under every name a local response has the four values of the host, and those that the filter gives under any other name. |
| `ResponseDriver.PlainFraming` | src/main.cpp:867-873 | A Content-Length left by the filter is replaced by the right one, whatever the headers. |
| `ResponseDriver.PlainValues` | src/main.cpp:867-873 | Under every name the default response has the values that the filter has left, but the right Content-Length. |
| `ResponseDriver.Respond` | src/main.cpp:822-884 | The response phase gives the outcome that `FilterScript.ResponsePhase` reads off the script; mixing is refused there with setError. |
| `ResponseDriver.EndStream` | src/main.cpp:810-820 | A stream that is finished is the answer; one that is not ends in setError. |
| `ResponseDriver.BuildLocalResponse` | src/main.cpp:922-942 | The loop over the additional headers and the text it leads to. |
| `ResponseDriver.WriteChunked` | src/main.cpp:995-1003 | The pieces handed to writeData are the whole text in order. |
| `ResponseDriver.Filter.RequestCallback` | src/http_filter.h:122-187 | One callback of the script is made, and its calls are taken over, unless a local response is there, which stops later callbacks and is not replaced. |
| `ResponseDriver.Filter.ResponseCallback` | src/http_filter.h:191-240 | The same for the response callbacks, behind which the response headers are those that the callback left. |
| `ResponseDriver.Filter.CheckLocalResponse` | src/http_filter.h:335-348 | The local response of the context becomes that of the request. |

## Left out

- Sockets, epoll, eventfd and writev as system calls: they are arbitrary steps; epoll is the set of registered interest bits, eventfd a counter, `epoll_ctl` succeeds, and `writev` takes everything or fails.
- HeaderPairs.RoundTrip: and CutDecodes are stated for lists whose marshalled form is shorter than 2^32 bytes, because a 32-bit filter cannot pass a longer string; `WrappedKey` shows what longer ones do.
- LsapiRequestParser.ParseRequest: is stated for packets with non-negative counts and header length, because the source gives other packets no defined meaning.
- Streaming.StreamDecodes: and the results that a faulty answer is no response at all, not only not the right one, are stated for heads that can be read back, because a CRLF in a header, which nothing in the source checks, makes other headers of it; a reader that ends lines at a bare LF is not modelled.
- The 431 reply to a head that is too long: the connection is closed, and what is sent before is not modelled.
- What else a sender must keep to: content in a 205 response, a Content-Length in a 204 response, the syntax of single header values.
- Resumption of a short `writev` over several vectors, and a first read of fewer than 8 request bytes: the models begin behind them.
- Negative offsets and counts in request packets, and the header index entry for Transfer-Encoding: packets are taken with non-negative counts; the entry is ignored as the parser ignores it.
- Content-Length found by `strtoll` when the packet announces -2, request-line and header-line parsing, and the decimal parsing of Content-Length: any value may come out of them.
- `LSAPI_End_Response_r`, `sendfile`, stderr packets, the write-skipping flag, and appending headers behind the finaliser.
- Allocation failure, and overflow of 32-bit lengths near 2^31.
- Chains of several filter modules: there is one module, which makes any host calls in any callback; the results of readBodyChunk are given to the handler one by one, and module Bridge says what they are; request headers, pseudo-headers and trailers are not modelled because nothing is proved of them.
- The removal of connections one by one at shutdown: the loop's map is emptied as it closes them, where the code clears it at the end.
- Exceptions inside a worker task: the bridge lets a worker give up at any point.
- The names of known request headers: two fixed tables, which would add only an easy member.
- LSAPI's own request handler and sink, which repeat the HTTP ones over `LsapiWriter`.
- Prefork process management, signals, suEXEC, socket addresses, metrics, logging, module loading and everything inside proxy-wasm, the virtual machines and OpenSSL.
