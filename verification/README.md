# Verified models of the HTTP server and client core

This project models the parts of the library whose correctness shows only over whole runs, and proves what they promise for every input, every interleaving or every reachable state. One module stands for one component:

- `MpscQueue`: the lock-free write queue, with `push` as two atomic steps, `pop` as a program counter, and any number of producers.
- `Http2Session`: the HTTP/2 client session, and the evidence it keeps about what the peer did (RST_STREAM, GOAWAY).
- `Http2Answers`: where every part of an HTTP/2 result comes from, read off the events of a run.
- `Retry`: the pool's rule for a second attempt, end to end with what the client layers report.
- `ClientGate`: the hand-off gate, the connection generations and the shared connect flights of one HTTP client.
- `ClientExact`: what each step of that client comes to, and that no connect flight is lost.
- `PoolScheduler`, `PoolRuns`, `PoolObject`, `PoolExact`: the per-origin scheduler. The first holds the state, its invariant and the primitive moves, the second the operations and their runs, the third the object whose methods change the maps and counters in place, the fourth exactly when each operation serves, queues, opens or gives up.
- `Http1Reference`, `Http1Session`: what an HTTP/1 connection is for, as a function of the received bytes and the application; and the pipelined session loop with its batching, partial writes and left-over bytes, proved to do that.
- `JsonText`, `JsonWriter`: printed JSON with an independent parser, and the incremental writer.
- `MiddlewareChain`: fusing runs of synchronous middleware, against one-by-one nesting.
- `LogSink`: the double-buffered asynchronous log file.
- `IdleRing`: the intrusive ring of idle connections, with real pointers.
- `Jwt`: Base64URL and signed tokens.
- `ChunkedBody`: the chunked body, against a decoder for section 7.1 of RFC 9112.
- `Base`, `HttpTypes`: shared definitions.

State that the code shares between threads or coroutines is a value with a `Step` function; a run is a sequence of states, and an inductive invariant holds in all of them. The classes beside it hold the code's own fields, and each method is proved to take exactly that step (or, where the code has a loop, to compute exactly the specified function). Everything that comes from outside (sockets, clocks, peers, parsers, handlers) is a parameter, an event, or an arbitrary choice.

`dafny verify dfyconfig.toml` checks the project.

## Results that are not plain yes

- A retry can process a request twice, and `Retry.GambleCanLose` shows how: an idempotent request on a reused HTTP/1 connection that breaks without an answer. `Retry.AtMostOnceProcessed` proves that this is the only case.
- When the application answers an HTTP/1 request without asking for its body, or the announced length is over the limit, and the connection stays open, the session keeps the whole buffer, head included, and answers the same request again (`spillSrc` is still 0). `Http1Session.Session.Iterate` states that this happens in exactly these two cases, and exactly when the left-over bytes are what follows the request; `Http1Session.AnswersAgain` proves the repetition for every number of rounds, and `Http1Session.OneRequestManyAnswers` runs it from a connection on which a single request arrives.
- After a chunked body that is malformed or too large, on a connection that stays open, the session drops what it has received and goes on with the next bytes, so the rest of that body is taken for requests. `Http1Reference.ContinuesIff` gives the exact condition, and `Http1Session.BodyBecomesRequest` is a run on which it happens.
- The comment on the middleware chain promises onion semantics. Fusing differs from nesting exactly when a `before` answers and an `after` of an entry in front of it would have changed that answer (`MiddlewareChain.GroupIsNestedIff`, with a concrete pair of entries in `MiddlewareChain.FusingCanShow`).
- A chunked body's trailers come back from the wire as they were if and only if every name is non-empty and free of colons and no value has whitespace around it (`ChunkedBody.WireRoundTripIff`); the code checks none of this, and `ChunkedBody.ColonMoves` is a trailer that comes back changed.

- The Base64URL decoder takes any character at the third and fourth place of a quadruple: `Jwt.DecodeErrIff` gives the exact condition for an error, and `Jwt.BrokenQuadIs` what it reads instead. A signature is compared after decoding, so `Jwt.VerifyIff` speaks of what it decodes to.
- The limit on the size of an HTTP/1 head holds for heads that had to be read; one that is complete in the left-over bytes is accepted at any size (`Http1Session.Session.ReadHead`).

## Model

| member | source | states |
|---|---|---|
| MpscQueue.RunInv | src/asio/GenericConnection.h:354-414 | the invariant over chain, gaps and the consumer's position holds after every interleaving of exchange, link and consumer steps |
| MpscQueue.FifoPrefix | src/asio/GenericConnection.h:369-413 | the nodes returned so far, followed by the nodes still in the chain, are exactly the tail-exchange order without the stub: none lost, duplicated or reordered |
| MpscQueue.StubAtMostOnce | src/asio/GenericConnection.h:404-411 | the stub is never twice in the chain |
| MpscQueue.ReturnedNodeIsFree | src/asio/GenericConnection.h:377-413 | a returned node is not the tail, not in the chain, and no producer still has to link behind it or link it, so it may be recycled |
| MpscQueue.EmptyAnswerIsHonest | src/asio/GenericConnection.h:377-413 | a null answer means that the queue was empty or that a producer was between exchange and link during the call |
| MpscQueue.RunPopFifo | src/asio/GenericConnection.h:377-413 | one whole `pop` takes the first node and nothing else, and gives up only on an empty queue or with an unlinked producer |
| MpscQueue.PushFifo | src/asio/GenericConnection.h:369-374 | one whole `push` appends its node to what the queue holds |
| MpscQueue.WriteQueue.constructor | src/asio/GenericConnection.h:360-362 | an empty, valid queue |
| MpscQueue.WriteQueue.Push | src/asio/GenericConnection.h:369-374 | the pointer code appends to the contents |
| MpscQueue.WriteQueue.Pop | src/asio/GenericConnection.h:377-413 | the pointer code takes the first of the contents, or answers null exactly as the step model does |
| MpscQueue.WriteQueue.PopLast | src/asio/GenericConnection.h:398-412 | the last-node path, with the stub inserted again |
| Http2Session.RunInv | src/asio/Http2ClientSession.cpp:277-569 | in every run the registers agree and every stored or returned disposition is true of a peer that obeys sections 6.8 and 8.7 of RFC 9113 |
| Http2Session.NotProcessedIsTrue | src/asio/Http2ClientSession.cpp:520-563 | a result returned as not processed is never processed, at any later time of the run |
| Http2Session.NotSentIsTrue | src/asio/Http2ClientSession.cpp:361-375 | a request that was handed to the output and withdrawn in the same stretch is never written and never processed; the same at 643-650 for a deadline that has passed |
| Http2Session.CompleteAnswerIsFinal | src/asio/Http2ClientSession.cpp:447-569 | once the response is ready, no reset, GOAWAY, close or failure changes its error, disposition, body or trailers; only the request's own body wait can |
| Http2Session.GoawayIsExact | src/asio/Http2ClientSession.cpp:520-545 | GOAWAY fails exactly the unfinished streams above the last stream id, and leaves every other stream untouched |
| Http2Session.GoawayIsForGood | src/asio/Http2ClientSession.cpp:520-545 | from then on, for the rest of the run, these streams say "not processed", are not written any more, and are never processed |
| Http2Session.NeverWritten | src/asio/Http2ClientSession.cpp:361-375 | a stream that has left the output unwritten is never written |
| Http2Session.LastStreamIdNeverGrows | src/asio/Http2ClientSession.cpp:520-523 | the last stream id never increases in a run |
| Http2Session.CapacityIsHonest | src/asio/Http2ClientSession.cpp:173-189 | an offer keeps admitted plus available within the local and the peer limit, and a failed or leaving session offers nothing |
| Http2Session.RefuseUnfinished | src/asio/Http2ClientSession.cpp:528-544 | the GOAWAY loop changes exactly the refused contexts, and collects them |
| Http2Session.FailLive | src/asio/Http2ClientSession.cpp:285-304 | the failure loop fails exactly the live contexts |
| Http2Session.ClientSession.OnGoaway | src/asio/Http2ClientSession.cpp:520-545 | the callback takes the model's GOAWAY step |
| Http2Session.ClientSession.Fail | src/asio/Http2ClientSession.cpp:285-304 | the connection failure takes the model's step |
| Http2Session.ClientSession.OnError | src/asio/Http2ClientSession.cpp:547-569 | stream and connection errors take the model's step |
| Http2Session.ClientSession.OnEndStream | src/asio/Http2ClientSession.cpp:447-470 | the end of a stream takes the model's step; `Http2Answers.EndIsStored` and `Http2Answers.SuccessIsComplete` say what that stores and returns |
| Http2Session.ClientSession.OnStreamClose | src/asio/Http2ClientSession.cpp:472-492 | the close of a stream takes the model's step |
| Http2Session.ClientSession.OnBodyWaitEnds | src/asio/Http2ClientSession.cpp:669-689 | the end of the body wait takes the model's step and returns the stored result |
| Http2Answers.ReadyIsComplete | src/asio/Http2ClientSession.cpp:447-470 | in every run, a finished stream has no error, and its body and trailers are those of one complete, publishable end of that stream |
| Http2Answers.SuccessIsComplete | src/asio/Http2ClientSession.cpp:447-470 | in every run, a returned result without an error holds the body and the trailers of one such end |
| Http2Answers.FailureIsNamed | src/asio/Http2ClientSession.cpp:669-707 | in every run, a returned error comes with no body, and one event of the run gave it as a reason for this stream |
| Http2Answers.StatusIsReceived | src/asio/Http2ClientSession.cpp:423-438 | a returned status was received in the headers of this stream |
| Http2Answers.EndIsStored | src/asio/Http2ClientSession.cpp:456-469 | the complete end of an open stream stores its body and trailers and makes the answer ready |
| Http2Answers.AnswerIsDelivered | src/asio/Http2ClientSession.cpp:447-707 | that answer is what the caller gets and keeps, whatever happens before the body wait returns without an error |
| Http2Answers.ReturnedStays | src/asio/Http2ClientSession.cpp:629-707 | a request hands back one result, which never changes |
| Http2Answers.FirstErrorStays | src/asio/Http2ClientSession.cpp:277-283 | the first error of a stream stays unless a GOAWAY refuses the stream |
| Http2Answers.StreamErrorIsExact | src/asio/Http2ClientSession.cpp:547-563 | a stream error reaches its own stream only, REFUSED_STREAM leaves evidence exactly on a live unfinished one, and nothing else changes |
| Http2Answers.FailureIsExact | src/asio/Http2ClientSession.cpp:285-304 | a failure ends the session once, and gives every live unfinished stream its stream object's error |
| Http2Answers.ReportIsCaptured | src/asio/Http2ClientSession.cpp:277-283 | an error that the stream object reports reaches the result of an open stream |
| Http2Answers.ResetIsCaptured | src/asio/Http2ClientSession.cpp:472-492 | a stream closed with NO_ERROR after a reset fails with exactly that code |
| Http2Answers.WaitIsExact | src/asio/Http2ClientSession.cpp:669-689 | the body wait returns a finished answer, the wait's own error in its place, or the first error there is |
| Http2Answers.ThrowIsExact | src/asio/Http2ClientSession.cpp:691-707 | an exception changes only an unfinished stream without an error |
| Http2Answers.ConnectionRecords | src/asio/Http2ClientSession.cpp:509-545 | in every run, settings, GOAWAY and failure are remembered exactly when they came, and the last stream id is the smallest of all GOAWAY frames |
| Http2Answers.LiveIff | src/asio/Http2ClientSession.cpp:376-407 | a stream is registered from its submission until it is closed, refused, failed or given up, and in no other way |
| Http2Answers.OutputIff | src/asio/Http2ClientSession.cpp:379-407 | a request waits for the writer until it is written, withdrawn, reset, refused or given up, and in no other way |
| Http2Answers.CapacityIsExact | src/asio/Http2ClientSession.cpp:173-189 | the offer is the largest number that fits both stream limits and the task limit while requests are accepted, and nothing otherwise |
| Retry.DispositionIsTrue | src/asio/HttpClient.cpp:1420-1529 | over every path through the client, a result that does not say "possibly processed" means that the peer never processes the request |
| Retry.ProtocolIsTrue | src/asio/HttpClient.cpp:1420-1529 | a result that names HTTP/1 did not come from an HTTP/2 stream |
| Retry.DoRequest | src/asio/HttpClientPool.cpp:983-1024 | the loop makes exactly the attempts, and returns exactly the result, of the recursive specification, which `Retry.LastTurnDecides` describes; the same loop is at 1054-1097 for managed origins |
| Retry.LastTurnDecides | src/asio/HttpClientPool.cpp:983-1024 | the caller gets the result of the last turn, the second whenever there is one (with a stop afterwards as its error); a turn that is turned back gives its own error with nothing sent and no status |
| Retry.SecondResultCounts | src/asio/HttpClientPool.cpp:1054-1097 | with two attempts made, status, body and error are those of the second |
| Retry.RetryIff | src/asio/HttpClientPool.cpp:136-177 | the rule accepts exactly an idempotent method after a lost connection with nothing sent, a lost reused HTTP/1 connection without a status, REFUSED_STREAM, or GOAWAY |
| Retry.AttemptsAreFew | src/asio/HttpClientPool.cpp:1054-1097 | at most two attempts, at most one for a method that is not idempotent, and a second one only after the rule accepted the first result |
| Retry.RetryHasEvidence | src/asio/HttpClientPool.cpp:136-177 | a result the rule accepts belongs to a request that was not processed, or to an unanswered HTTP/1 exchange on a reused connection |
| Retry.SecondAttemptIff | src/asio/HttpClientPool.cpp:1054-1097 | there is a second attempt if and only if nothing blocks either, no stop comes in between, and the rule accepts the first result |
| Retry.AtMostOnceProcessed | src/asio/HttpClientPool.cpp:136-177 | a request is processed more than once if and only if it is idempotent, nothing stops it, its first attempt was such an exchange, and the peer acted on both |
| Retry.GambleCanLose | src/asio/HttpClientPool.cpp:153-177 | a concrete request that is processed twice |
| ClientGate.RunInv | src/asio/HttpClient.cpp:338-751 | gate, tickets, transport, posted stops and flights stay consistent in every run |
| ClientGate.GateIsExclusive | src/asio/HttpClient.cpp:523-619 | at most one owner (a lease or an unclaimed grant), busy exactly when there is one, a free gate has an empty queue, and grants minus returns is one or zero accordingly |
| ClientGate.GateIsFair | src/asio/HttpClient.cpp:538-619 | tickets get the gate in the order they were drawn, and never past one still queued |
| ClientGate.ReleaseServesFirst | src/asio/HttpClient.cpp:602-619 | a release grants the first waiter that still wants the gate and marks those before it as abandoned |
| ClientGate.HolderKeepsTransport | src/asio/HttpClient.cpp:1503-1519 | whoever holds the gate sees the transport and generation it started with |
| ClientGate.TransportIsStable | src/asio/HttpClient.cpp:726-751 | the transport object and its generation do not change while the same holder keeps the gate |
| ClientGate.OnlyOwnTransportIsClosed | src/asio/HttpClient.cpp:461-521 | in every run, a step that closes the installed transport belongs to its current user or to a close asked for while it was installed; a stale token or a late stop never closes a newer one |
| ClientGate.StopClosesOldOnly | src/asio/HttpClient.cpp:487-521 | a posted stop closes the transport if and only if it was installed before the close was asked for |
| ClientGate.CloseCommutes | src/asio/HttpClient.cpp:508-521 | a close from another thread just before a transport is installed (923-953) leaves the same client as one just after |
| ClientGate.OneFlight | src/asio/HttpClient.cpp:621-675 | at most one connect flight is uncompleted |
| ClientGate.NextWaiter | src/asio/HttpClient.cpp:602-619 | the loop stops at the first waiter that still wants the gate |
| ClientGate.AbandonOld | src/asio/HttpClient.cpp:498-505 | the loop abandons exactly the queued waiters up to the cutoff |
| ClientGate.Core.ReleaseGate | src/asio/HttpClient.cpp:602-619 | the code hands the gate on as the model does |
| ClientGate.Core.AbandonGate | src/asio/HttpClient.cpp:523-536 | leaving takes the waiter out and returns its grant if it had one |
| ClientGate.Core.DisconnectToken | src/asio/HttpClient.cpp:461-485 | closes the transport only for its own token |
| ClientGate.Core.ScheduleStop | src/asio/HttpClient.cpp:508-521 | moves the generation and posts one stop |
| ClientGate.Core.StopOnLoop | src/asio/HttpClient.cpp:487-506 | a posted stop takes the model's step |
| ClientExact.RefusedIs | src/asio/HttpClient.cpp:552-557 | a client that has moved on refuses the gate, and the flight of a refused connect is over |
| ClientExact.QueuedIs | src/asio/HttpClient.cpp:563-564 | a busy gate queues the newcomer last and changes nothing else |
| ClientExact.TakenIs | src/asio/HttpClient.cpp:558-562 | a free gate goes to the newcomer: with a new opening transport, or with the active one of its generation; otherwise it stays free |
| ClientExact.WokenWithout | src/asio/HttpClient.cpp:582-590 | a coroutine that wakes without the gate leaves the queue and ends its flight |
| ClientExact.WokenWith | src/asio/HttpClient.cpp:591-599 | one that wakes with the gate and is still current goes on as with a free gate |
| ClientExact.WokenLate | src/asio/HttpClient.cpp:591-599 | one that wakes with the gate too late gives it back once and ends its flight |
| ClientExact.ReleaseFreesIff | src/asio/HttpClient.cpp:602-619 | a release frees the gate if and only if no queued waiter still wants it |
| ClientExact.ConnectEndsIs | src/asio/HttpClient.cpp:678-723 | the flight is over; the transport is active if and only if the connect worked and is still current, and closed otherwise; only an HTTP/2 session keeps the gate |
| ClientExact.ExchangeEndsIs | src/asio/HttpClient.cpp:1322-1339 | the gate is given back, and the transport stays if and only if the answer keeps the connection and the client has not moved on |
| ClientExact.SessionEndsIs | src/asio/HttpClient.cpp:726-750 | the end of a session closes its transport and gives the gate back |
| ClientExact.StopAbandons | src/asio/HttpClient.cpp:487-506 | a stop tells exactly the queued waiters up to its cutoff to give up |
| ClientExact.HolderFindsPhase | src/asio/HttpClient.cpp:1503-1519 | in every run, an exchange or session that is still current has an active transport, and a connect an opening one |
| ClientExact.NoFlightIsLost | src/asio/HttpClient.cpp:621-723 | in every run, a connect flight that has started and is not over has a coroutine that connects or waits for the gate |
| PoolScheduler.ScanLoop | src/asio/HttpClientPool.cpp:402-436 | the scan keeps, drops and finds connections as specified |
| PoolRuns.ScanFacts | src/asio/HttpClientPool.cpp:402-436 | the scan keeps every connection in use, adds none, and finds only a listed, usable one |
| PoolRuns.SelectInv | src/asio/HttpClientPool.cpp:398-473 | selecting keeps the invariant and returns a listed connection of the origin |
| PoolRuns.SelectLimit | src/asio/HttpClientPool.cpp:402-436 | a selected HTTP/2 connection has room within both stream limits, any other is unused |
| PoolRuns.RunInv | src/asio/HttpClientPool.cpp:360-779 | the invariant over origins, connections, tickets, deadlines and the queue total holds in every run of acquire, wake, release, drain, sweep, capacity change and stop |
| PoolRuns.Accounting | src/asio/HttpClientPool.cpp:528-681 | in every reachable state `active` is the number of leases and unclaimed grants, `queuedRequests` is the total length of all queues, dropped origins included, and each origin is within its connection and queue limits |
| PoolRuns.GrantsWithinLimits | src/asio/HttpClientPool.cpp:423-431 | a step that adds users to a connection leaves an HTTP/2 one within the smaller stream limit, and any other with a single user |
| PoolRuns.DrainServes | src/asio/HttpClientPool.cpp:538-569 | a drain takes a prefix of the list, in order, and moves no other ticket |
| PoolRuns.NoOvertaking | src/asio/HttpClientPool.cpp:630-664 | while a request waits, no newcomer and nobody behind it obtains a connection of its origin, over any stretch of a run |
| PoolRuns.QueueDeadlineIsFixed | src/asio/HttpClientPool.cpp:643-664 | once a request has been queued its queue deadline never changes, through refreshes, re-queuing and the second attempt, and no waiter's timer outlives it |
| PoolRuns.RequeueInv | src/asio/HttpClientPool.cpp:571-592 | a re-queued grant gives its connection back and stays within the queue limit and its deadline |
| PoolRuns.WokenInv | src/asio/HttpClientPool.cpp:684-735 | every outcome of a wake-up keeps the invariant |
| PoolRuns.SweptInv | src/asio/HttpClientPool.cpp:749-779 | a sweep drops nothing in use and keeps the accounting |
| PoolRuns.NoLostWakeUp | src/asio/HttpClientPool.cpp:506-526 | whenever a place on a connection is freed or its capacity changes, a drain of its origin is posted, and stays posted until it runs |
| PoolObject.ClientPool.SelectManaged | src/asio/HttpClientPool.cpp:398-473 | the object changes as the selection specifies, and `PoolExact.SelectIff` says when that finds, opens or refuses |
| PoolObject.ClientPool.RefreshConnectDeadline | src/asio/HttpClientPool.cpp:475-504 | the waiter's connect deadline and timer change as specified |
| PoolObject.ClientPool.RemoveWaiter | src/asio/HttpClientPool.cpp:528-536 | a queued waiter leaves its list and the total, any other is left alone |
| PoolObject.ClientPool.ServeFront | src/asio/HttpClientPool.cpp:544-567 | one round of the drain |
| PoolObject.ClientPool.DrainManaged | src/asio/HttpClientPool.cpp:538-569 | the two loops compute the specified drain and keep the invariant |
| PoolObject.ClientPool.ScheduleManaged | src/asio/HttpClientPool.cpp:506-526 | posts a drain once, and none while stopping |
| PoolObject.ClientPool.RunScheduled | src/asio/HttpClientPool.cpp:514-525 | the posted drain, invariant kept |
| PoolObject.ClientPool.OnCapacityChanged | src/asio/HttpClientPool.cpp:449-471 | notes when the connection came up, and posts a drain |
| PoolObject.ClientPool.ReleaseManaged | src/asio/HttpClientPool.cpp:594-609 | gives one user of the connection back and posts a drain |
| PoolObject.ClientPool.RequeueGrant | src/asio/HttpClientPool.cpp:571-592 | re-queues the grant or refuses it when the queue is full |
| PoolObject.ClientPool.LeaveManaged | src/asio/HttpClientPool.cpp:666-681 | a destroyed registration gives back its place and its reservation |
| PoolObject.ClientPool.AcquireManaged | src/asio/HttpClientPool.cpp:611-664 | the acquisition up to its first suspension, invariant kept |
| PoolObject.ClientPool.WakeWaiter | src/asio/HttpClientPool.cpp:684-735 | one turn of the waiting loop and its exit, invariant kept |
| PoolExact.TestsAre | src/asio/HttpClientPool.cpp:407-433 | when a connection is gone, coming up or has room, in terms of its users and its capacity |
| PoolExact.SelectIff | src/asio/HttpClientPool.cpp:398-473 | nothing is selected if and only if no listed connection has room and one is coming up or the living ones have reached the limit; otherwise the first with room, or else a new, listed, unused connection |
| PoolExact.StaysExhausted | src/asio/HttpClientPool.cpp:402-439 | a selection that finds nothing leaves the origin exhausted |
| PoolExact.RefreshMeans | src/asio/HttpClientPool.cpp:475-504 | what becomes of a waiter's connect deadline: cleared by a connection that came up in time, expired by one that did not, kept otherwise |
| PoolExact.RoundExact | src/asio/HttpClientPool.cpp:544-567 | the front waiter is rejected, served, or left waiting, and exactly when |
| PoolExact.GrantExact | src/asio/HttpClientPool.cpp:555-566 | a served waiter holds a connection that had room |
| PoolExact.DrainExact | src/asio/HttpClientPool.cpp:538-569 | a drain serves or rejects a prefix of the waiters, each as it deserves; the first one left is in time, and its origin is exhausted |
| PoolExact.AcquireExact | src/asio/HttpClientPool.cpp:611-664 | a request is leased at once if and only if nobody waits and the origin is not exhausted; otherwise it is queued last, or refused when the queue is full |
| PoolExact.WakeExact | src/asio/HttpClientPool.cpp:684-735 | which wake-ups claim the grant, queue again, go on waiting or give up |
| PoolExact.KeptIff | src/asio/HttpClientPool.cpp:755-769 | a sweep drops exactly the unused idle connections of a list |
| PoolExact.SweepExact | src/asio/HttpClientPool.cpp:749-779 | and only of managed origins without waiters; an origin is dropped exactly when nothing is left of it |
| PoolExact.NotedExact | src/asio/HttpClientPool.cpp:449-462 | when a connection counts as up since, for every connection |
| PoolExact.TimersAre | src/asio/HttpClientPool.cpp:643-664 | in every run, a waiter's timer is the earlier of its queue and connect deadlines |
| Http1Session.Session.Send | src/core/HttpSessionImpl.cpp:239-290 | an optimistic write and the rest of it send the buffer once |
| Http1Session.Session.SendTwo | src/core/HttpSessionImpl.cpp:262-314 | the same for head and body, wherever the first write stopped |
| Http1Session.Session.Flush | src/core/HttpSessionImpl.cpp:343-359 | everything held back is sent, in front of nothing else |
| Http1Session.Session.WriteResponse | src/core/HttpSessionImpl.cpp:505-600 | every path sends head and body once, or the head alone for HEAD |
| Http1Session.Session.WriteFile | src/core/HttpSessionImpl.cpp:634-715 | head and file contents are sent in order, in any pieces |
| Http1Session.Session.Deliver | src/core/HttpSessionImpl.cpp:1763-1825 | whichever way is chosen, sent plus batch grows by exactly this answer, the batch stays below 64 KiB, and is empty before the connection closes |
| Http1Session.Session.Read | src/core/HttpSessionImpl.cpp:961-974 | a blocking read is only reachable with an empty batch, and gives nothing only when the peer has sent everything |
| Http1Session.Session.ReadHead | src/core/HttpSessionImpl.cpp:1007-1122 | reads until a head is parsed, refused or lost, and says which state of the bytes calls for each; a head that had to be read is within the limit; no byte is dropped, and refusals go out after the batch |
| Http1Session.Session.ReadLength | src/core/HttpSessionImpl.cpp:1356-1395 | the body is the announced bytes after the head and the rest is kept, or the peer is gone before its end |
| Http1Session.Session.ReadChunked | src/core/HttpSessionImpl.cpp:1397-1462 | the decoded body and the tail, or the flaw, are those of decoding the whole stream at once, however it arrived |
| Http1Session.Session.ReadBody | src/core/HttpSessionImpl.cpp:1309-1472 | the outcome is the one the reference gives for the bytes, and the left-over bytes are where it puts them; 100 Continue goes out exactly when it is due, and in order |
| Http1Session.Session.Answer | src/core/HttpSessionImpl.cpp:1513-1840 | one answer per request, and it is the application's answer to this head and this outcome, an unreadable body included; the stream stands where the reference stands |
| Http1Session.Session.Proceed | src/core/HttpSessionImpl.cpp:1210-1840 | a whole head is refused, handed over or answered, as the head and the application decide |
| Http1Session.Session.Iterate | src/core/HttpSessionImpl.cpp:952-1846 | one iteration answers the next request as the reference does, also one that closes the connection, or ends with the reply that the bytes call for; a body is reported as broken only if it is flawed in all that was received, and with the read that brings the flaw; the same request stays at the front if and only if its body was not asked for or is announced as too large, and the left-over bytes are what follows it if and only if the body was asked for, not announced as too large, all there, and within the limit or with nothing behind it |
| Http1Session.Session.Run | src/core/HttpSessionImpl.cpp:952-1848 | over any number of requests, the bytes sent and batched are the application's answers to the requests in the received bytes, in order and each once; a body is called broken only if it cannot be read from all that was received, and cut off only at the end of everything; without broken bodies the exchanges are the reference function of the bytes; at the end nothing is held back, and the last reply is the one the bytes call for |
| Http1Session.BodyBecomesRequest | src/core/HttpSessionImpl.cpp:1755-1756 | a run on a concrete stream, however it arrives: after a body that was too large, the next byte of that body is taken for a request and answered |
| Http1Session.AnswersAgain | src/core/HttpSessionImpl.cpp:1833-1840 | for every number of rounds, a request that leaves the stream in place is answered in each, and no further byte is read |
| Http1Session.OneRequestManyAnswers | src/core/HttpSessionImpl.cpp:1833-1840 | the same from the start of a connection on which one request arrives |
| Http1Reference.TakeStable | src/core/HttpSessionImpl.cpp:1297-1307 | the first request of a stream does not depend on the bytes behind it |
| Http1Reference.TakeIs | src/core/HttpSessionImpl.cpp:1309-1462 | the first request is its head and exactly the bytes its framing names |
| Http1Reference.OutputIs | src/core/HttpSessionImpl.cpp:505-600 | the bytes of one exchange, with 100 Continue in front and without a body for HEAD |
| Http1Reference.EveryExchange | src/core/HttpSessionImpl.cpp:952-1848 | every exchange answers the head where the ones before it leave the stream, with the application's answer to it and to what became of its body; 100 Continue is sent exactly for a wanted body within the limit; there is a next one only if the head keeps the connection and the server is not draining |
| Http1Reference.ArrivalDoesNotMatter | src/core/HttpSessionImpl.cpp:1837-1840 | unless a body breaks, the requests handled and their answers do not depend on how the stream was cut into reads |
| Http1Reference.ReachIsServe | src/core/HttpSessionImpl.cpp:952-1848 | unless a body breaks, the exchanges of a connection are a function of its bytes and the application |
| Http1Reference.StaysIff | src/core/HttpSessionImpl.cpp:1297-1302 | the stream stays at the request if and only if its body is not asked for or is announced as too large |
| Http1Reference.ContinuesIff | src/core/HttpSessionImpl.cpp:1833-1840 | when what is left is what follows the request, as a condition on the bytes and the application |
| Http1Reference.BrokenIsUnreadable | src/core/HttpSessionImpl.cpp:1417-1462 | a body reported as broken cannot be read from all that was received |
| Http1Reference.FlawStays | src/core/HttpSessionImpl.cpp:1417-1446 | a malformed or oversize body stays so, whatever comes after |
| Http1Reference.ObeysIsPossible | src/core/HttpSessionImpl.cpp:1399-1408 | the contract assumed of the parser and of the chunk decoder can be met |
| JsonText.AppendString | src/core/detail/JsonEscape.h:44-89 | copying whole spans gives the character-by-character escaping |
| JsonText.EscapeTable | src/core/detail/JsonEscape.h:18-37 | which characters are escaped, and how |
| JsonText.StringRoundTrip | src/core/detail/JsonEscape.h:18-38 | an escaped string parses back to itself |
| JsonText.DecimalRoundTrip | src/core/JsonWriter.h:283-290 | every integer is written as a number of the JSON grammar with its value |
| JsonText.RoundTrip | src/core/JsonWriter.h:81-281 | the printed text of every well-formed tree parses back to that tree, whatever follows it |
| JsonWriter.AlwaysViable | src/core/JsonWriter.h:205-281 | the text of every draft is the beginning of the text of a well-formed tree |
| JsonWriter.CompleteIsOneValue | src/core/JsonWriter.h:188-191 | with nothing open and something written, the text is exactly one JSON value |
| JsonWriter.EveryCallSequence | src/core/JsonWriter.h:81-281 | both hold after every sequence of calls, matched or not |
| JsonWriter.Perform | src/core/JsonWriter.h:81-281 | any calls on a writer object: its text can be completed to a JSON value, and is exactly one when `isComplete()` holds and it is not empty |
| JsonWriter.Writer.ValueInteger | src/core/JsonWriter.h:143-169 | the fields follow the draft with the decimal text put in |
| JsonWriter.Writer.KeyText | src/core/JsonWriter.h:89-108 | the text that a key adds |
| JsonWriter.PutRender | src/core/JsonWriter.h:247-281 | a value extends the text by a comma where one is due and its own text |
| JsonWriter.KeyedRender | src/core/JsonWriter.h:81-110 | a key extends the text by a null for a forgotten value, a comma and the label |
| JsonWriter.EndedRender | src/core/JsonWriter.h:222-241 | an end extends the text by a null for a forgotten value and the bracket |
| JsonWriter.Writer.BeforeValue | src/core/JsonWriter.h:247-281 | accepts exactly where a value may stand, and writes the comma |
| JsonWriter.Writer.Value | src/core/JsonWriter.h:112-181 | the fields follow the draft with the value put in |
| JsonWriter.Writer.Key | src/core/JsonWriter.h:81-110 | the fields follow the draft with the key |
| JsonWriter.Writer.BeginContainer | src/core/JsonWriter.h:205-220 | the fields follow the draft with the container opened, or unchanged at depth 32 |
| JsonWriter.Writer.EndContainer | src/core/JsonWriter.h:222-241 | the fields follow the draft with the container closed, or unchanged on a mismatch |
| JsonWriter.WriteTree | src/core/JsonWriter.h:81-241 | walking a tree that fits puts exactly that tree into the draft |
| JsonWriter.WriteDocument | src/core/JsonWriter.h:81-281 | a tree nested at most 32 deep is written as a text that parses back to it |
| MiddlewareChain.NestedRun | src/core/CompileTimeChain.h:199-246 | what one-by-one nesting makes of a run of synchronous entries |
| MiddlewareChain.GroupIsNestedIff | src/core/CompileTimeChain.h:199-246 | for one run and one request, fusing equals nesting if and only if no `before` answers or the `after`s in front of it leave the answer unchanged |
| MiddlewareChain.FusedIsNested | src/core/CompileTimeChain.h:256-288 | for whole chains with asynchronous entries, fusing changes nothing for any request when every run is harmless in that sense |
| MiddlewareChain.FusedIsNestedFor | src/core/CompileTimeChain.h:256-288 | the same for a single request that is harmless at every run it reaches |
| MiddlewareChain.QuietIsHarmless | src/core/CompileTimeChain.h:256-288 | in particular when no `before` ever answers |
| MiddlewareChain.InterceptionSkipsInside | src/core/CompileTimeChain.h:224-232 | an answer of a `before` skips everything inside the run and all `after`s of the run |
| MiddlewareChain.OuterSeesAnswer | src/core/CompileTimeChain.h:256-288 | the layers outside a run see its answer |
| MiddlewareChain.FusingCanShow | src/core/CompileTimeChain.h:199-246 | two entries for which fused and nested chains differ |
| MiddlewareChain.SyncRun | src/core/CompileTimeChain.h:104-140 | the collected run is the longest one of synchronous entries |
| MiddlewareChain.RunGroup | src/core/CompileTimeChain.h:219-244 | the two loops of the fused closure compute the specified group |
| MiddlewareChain.RunIsOnion | src/core/CompileTimeChain.h:199-246 | a request that passes goes through every `before` in order, each getting what the one in front of it left, and comes out through every `after` in reverse, fused or nested |
| MiddlewareChain.RunStops | src/core/CompileTimeChain.h:224-232 | a request that one `before` answers has seen exactly the ones in front of it, and that answer is the result |
| LogSink.RunInv | src/core/AsyncFileSink.cpp:34-137 | text and drop counts are conserved and tickets accounted for in every interleaving |
| LogSink.AcceptedIsKept | src/core/AsyncFileSink.cpp:34-58 | in every run, the accepted text is the lines of the write calls that were not refused, in order, and the others are counted |
| LogSink.DropIff | src/core/AsyncFileSink.cpp:40-48 | a line is dropped and counted if and only if more than the limit has been accepted and neither written nor taken for writing; otherwise it is the next accepted text |
| LogSink.TicketIs | src/core/AsyncFileSink.cpp:60-71 | a flush call is known exactly when it was made, with what had been kept before it |
| LogSink.SyncedIs | src/core/AsyncFileSink.cpp:128-128 | the flushed part of the file is what it held at some `flush`, and the file only grows |
| LogSink.ExitsIff | src/core/AsyncFileSink.cpp:95-107 | the background thread exits if and only if it was told to stop, everything kept is in the file and no flush waits; it works whenever there is text or a flush call |
| LogSink.FileIsFaithful | src/core/AsyncFileSink.cpp:34-133 | in every run, the file and the two buffers together are exactly the lines of the write calls that were not refused, in order; every refused line is reported or still pending |
| LogSink.FlushWaits | src/core/AsyncFileSink.cpp:60-135 | when a flush returns, every line kept before the call is in the flushed part of the file |
| LogSink.ExitLeavesNothing | src/core/AsyncFileSink.cpp:95-98 | the background thread exits only with every kept line in the file, every refused one reported, and every flush call answered |
| LogSink.FileSink.WriteLine | src/core/AsyncFileSink.cpp:34-57 | one critical section: the line is appended to the buffer, or counted as dropped when the buffer is above the limit |
| LogSink.FileSink.QueueFlush | src/core/AsyncFileSink.cpp:60-71 | one critical section: queue a flush request |
| LogSink.FileSink.TakeBatch | src/core/AsyncFileSink.cpp:83-108 | one critical section: exit, wait on, or swap both buffers |
| LogSink.FileSink.ExchangeDropped | src/core/AsyncFileSink.cpp:111-114 | takes the drop count when there is text to write |
| LogSink.FileSink.WriteNotice | src/core/AsyncFileSink.cpp:115-123 | writes the notice for a positive count |
| LogSink.FileSink.WriteData | src/core/AsyncFileSink.cpp:125-126 | appends the taken text |
| LogSink.FileSink.SyncFile | src/core/AsyncFileSink.cpp:128-128 | flushes the file |
| LogSink.FileSink.WakeAll | src/core/AsyncFileSink.cpp:130-135 | answers exactly the requests of the batch |
| LogSink.FileSink.Round | src/core/AsyncFileSink.cpp:81-136 | one round without interruption appends the notice and the waiting text, flushes, and answers every waiting flush call |
| IdleRing.Scanner.constructor | src/core/IdleScanner.cpp:19-25 | an empty, well-formed ring |
| IdleRing.Scanner.Register | src/core/IdleScanner.cpp:27-35 | the entry is in front, the ring well formed, the count its length |
| IdleRing.Scanner.Unregister | src/core/IdleScanner.cpp:37-45 | the entry is out, wherever it was, the others in the same order, the ring well formed |
| IdleRing.Scanner.Scan | src/core/IdleScanner.cpp:68-81 | ends, visits every entry once in order, and closes the socket of every entry whose last activity is at least its own timeout ago, or the scanner's if it has none, and no other socket |
| IdleRing.Scanner.CloseAll | src/core/IdleScanner.cpp:116-129 | ends, visits every entry once, and no socket of the ring stays open |
| IdleRing.Guard.constructor | src/core/IdleScanner.h:71-77 | registers the entry unless there is no scanner |
| IdleRing.Guard.Release | src/core/IdleScanner.h:96-103 | unregisters once; without a scanner nothing happens |
| IdleRing.Guard.Destroy | src/core/IdleScanner.h:79-85 | unregisters unless released before |
| IdleRing.GuardedLifetime | src/core/IdleScanner.h:68-108 | releasing, releasing again and destroying leaves the ring as it was before the guard |
| Jwt.EncodePadded | src/core/JwtAuth.cpp:40-50 | the first loop produces the padded standard encoding |
| Jwt.ReplaceReserved | src/core/JwtAuth.cpp:52-63 | the second loop replaces the reserved characters and nothing else |
| Jwt.DropPadding | src/core/JwtAuth.cpp:65-69 | the third loop drops the equal signs at the end |
| Jwt.Base64UrlEncode | src/core/JwtAuth.cpp:34-72 | the three loops together give the unpadded URL encoding of three bytes at a time |
| Jwt.EncodeAlphabet | src/core/JwtAuth.cpp:34-72 | an encoding contains no dot, plus, slash or equal sign |
| Jwt.Normalize | src/core/JwtAuth.cpp:80-101 | restores the standard alphabet and the padding |
| Jwt.Base64UrlDecode | src/core/JwtAuth.cpp:78-153 | decodes or fails as specified, for every input |
| Jwt.RoundTrip | src/core/JwtAuth.cpp:34-153 | decoding undoes encoding for every byte string |
| Jwt.Alphabet | src/core/JwtAuth.cpp:28-63 | the 64 characters, in order |
| Jwt.EncodeIsBits | src/core/JwtAuth.cpp:40-50 | three bytes are written as their 24 bits, six at a time; one or two are filled up with zeros |
| Jwt.DecodeErrIff | src/core/JwtAuth.cpp:97-138 | decoding fails if and only if one character is left over or one of the first two of a quadruple is in neither alphabet |
| Jwt.QuadIsBits | src/core/JwtAuth.cpp:140-149 | four characters of the alphabet are read as their 24 bits |
| Jwt.BrokenQuadIs | src/core/JwtAuth.cpp:140-149 | what is read when the third or fourth is outside the alphabet |
| Jwt.SignedVerifies | src/core/JwtAuth.cpp:225-280 | a signed token splits at its first two dots into its segments, passes the signature check, and gives back header and payload, for every HMAC of 32 bytes |
| Jwt.VerifyIff | src/core/JwtAuth.cpp:248-294 | a token is accepted if and only if it is two parts without dots and a signature that decodes to the 32 bytes of the HMAC of both, and both parts decode; the claims are these decodings |
| Jwt.ForgeryIsRefused | src/core/JwtAuth.cpp:267-280 | a signature that decodes to anything but the HMAC of what it signs is an error |
| ChunkedBody.HexRoundTrip | src/core/ChunkedBody.cpp:80-91 | the size line has the size of the chunk |
| ChunkedBody.HexIsShort | src/core/ChunkedBody.cpp:85-87 | the size has no leading zeros |
| ChunkedBody.SerializeTo | src/core/ChunkedBody.cpp:80-102 | the loops append the specified wire form |
| ChunkedBody.WireSize | src/core/ChunkedBody.cpp:104-121 | the size computed beforehand is the length of the wire form |
| ChunkedBody.WireDecodes | src/core/ChunkedBody.cpp:80-102 | what a decoder for section 7.1 of RFC 9112 makes of every body with CR/LF-free trailers, whatever follows on the connection |
| ChunkedBody.WireRoundTripIff | src/core/ChunkedBody.cpp:80-102 | the data and the trailers come back if and only if every name is non-empty and colon-free and every value is free of outer whitespace |
| ChunkedBody.DataRoundTrip | src/core/ChunkedBody.cpp:80-102 | the data and the end of the body come back whenever the trailers can be read at all |
| ChunkedBody.ColonMoves | src/core/ChunkedBody.cpp:93-99 | a CR/LF-free trailer that comes back changed |
| ChunkedBody.CallsRoundTripIff | src/core/ChunkedBody.cpp:12-29 | for every sequence of calls with CR/LF-free trailers, the decoder gets the data written before the first end and the trailers given there, under the same exact condition |
| ChunkedBody.CollectMeans | src/core/ChunkedBody.cpp:12-29 | what is collected is what the calls mean, and no collected chunk is empty |
| ChunkedBody.Body.Write | src/core/ChunkedBody.cpp:12-19 | adds a non-empty chunk before the end, otherwise nothing |
| ChunkedBody.Body.End | src/core/ChunkedBody.cpp:21-29 | the first end fixes the trailers, later ones do nothing |

## Left out

- Weak memory: the atomics of the queue and of the log sink interleave as single steps.
- Sockets, TLS, resolver, timers, nghttp2, zlib, OpenSSL, picohttpparser and boost::json: events, choices, or functions with the contract the code relies on.
- Write failures of the HTTP/1 session: an exception while writing ends the session and no claim is made about what was sent. A read gives nothing only when the peer has sent everything: inside a head that ends the session, inside a body the request is answered all the same.
- Http1Session.Session.Run: runs are taken up to any number of requests; that a session ends at all is not claimed, because a connection may stay open for ever.
- WebSocket and SSE sessions: the HTTP/1 loop flushes and hands the socket over.
- The header fields of a request (framing, routing, Expect, keep-alive): one function of the head decides them, and one of the request's number and head whether the middleware lets the body be read.
- Peak counters, idle times and `close` calls on the clients of the pool: the environment's.
- Pool entries for connections outside managed origins (the checkout map).
- Origins, connections and waiters of the pool are entries of maps with numeric names, not heap objects.
- The coroutine frames of the gate: a destroyed waiter is a wake-up that fails.
- ClientGate.StopClosesOldOnly: speaks of closes between two stretches of loop code. A close from another thread inside a stretch is taken as coming right after it, which `ClientGate.CloseCommutes` justifies for the installation of a transport.
- Floating-point values of the JSON writer: any text of the JSON number grammar, with null for what is not finite.
- Optional whitespace in JSON: the parser accepts none, and the writer never produces any.
- Claims inside tokens (algorithm, expiry, issuer, audience) and their JSON: after the signature check the code hands the decoded bytes to the JSON parser.
- Character and byte values: the JSON writer and the chunked body treat a byte as a character; a JSON escape above U+D7FF is outside the parser.
- Log lines: the text of the drop notice and file rotation.
- Header-only middleware, configuration, error mapping, header maps, buffers, logging channels, examples and tools.
