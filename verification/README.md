# grpcuds in Dafny

grpcuds carries gRPC over HTTP/2 on Unix domain sockets. nghttp2 does the HTTP/2 framing; this project
models what grpcuds does around it, and proves what that code is for.

* **Outbound bytes.** `QueueModel` is the per-call outbound queue (partly shipped head, promised head,
  DropOldest and Reject) with its history: bytes shipped, messages accepted, messages that survived.
  `QueueProofs` proves conservation, pinning, capacity and the agreement of the two send paths over every
  run; `QueuePaths` that any mix of the two send paths gives what copying everything gives;
  `QueueAdmission` what gets in and what it pushes out.
  `OutQueue.dfy` is the queue object, refining the model in place.
* **One connection.** `ConnModel` is the connection as a value: streams, ordered tail, the outstanding
  promise, hooks, the frames emitted. nghttp2 is a script of frames it wants to send, the socket a list of
  the byte counts successive writes accept (0 is EAGAIN). `StreamProofs`, `ConnProofs`, `DispatchProofs`,
  `DeadlineProofs` and `OutputProofs` show that each event keeps one invariant, `ConnRuns` that every run
  does. `ConnTheorems`, `ConnRequests`, `ConnHistory` and `ConnDecisions` state what follows in every
  reachable state; `ConnReceipt`, `ConnServed` and `ConnWrites` what becomes of received requests and of
  handlers' writes; `ConnFlush` that a flush makes progress. `Connection.dfy` is the connection object: its
  callbacks run on the queue object and refine the model method by method.
* **Mailboxes.** `HandleMailbox` (C ABI: raw handles, tombstones) and `TokenMailbox` (Rust: tokens, elided
  pokes) are transition systems over all interleavings, beside the objects they describe; `WriterFlags` says
  when the writers of a call fall silent.
* **Codecs.** `Framing`, `Deframing`, `Percent` and `Utf8`, `Timeouts`, `HealthCodec` and `HealthFields`.
* **Wire log.** `Wirelog` (checksum, capture record) and `Rotation` (capture files).

Stream states follow section 5.1 of RFC 7540 and stream ids section 5.1.1 of RFC 7540; the checksum is that
of section 3.1 of RFC 791 and TCP headers those of section 3.1 of RFC 793; UTF-8 is that of sections 3 and 4
of RFC 3629.

Assumed of the surroundings (`ConnRuns.Allowed`): nghttp2 opens each stream id once, delivers END_STREAM at
most once per stream and no HEADERS after it, asks for a positive number of bytes, and offers 9-byte frame
headers. In `HandleMailbox`, accept, free and drain run on one thread (docs/THREADING.md:104-107).

Where a promise does not hold as it stands, the exact condition is proved beside a concrete input or run:

* A finish before dispatch does not always win: a pass that turns the request away overwrites the status and
  keeps the text (`EarlyFinishCanBeLost`, `EarlyFinishSurvivesIff`). From dispatch on the first decision
  stands (`FirstDecisionStands`).
* A capacity bound holds only if the queue met it when the policy was installed (`PolicyBoundIff`,
  `BoundCanBeExceeded`).
* An empty consume would make an untouched promised head evictable again (`ConsumeUnstartsIff`). Promises the
  read callback makes are never empty, so no run of the connection gets there.
* A handle-mailbox op pushed after its connection was freed can reach the next connection at that address
  (`StaleOpCanReachAnother`); an op reaches its own connection exactly if that was live at the push
  (`ReplaysAreSafe`). Tokens rule this out (`AppliedWhereWritten`).
* A finish does not at once silence a call's other writers: a write that saw the call unfinished may still be
  queued after it (`WriteCanFollowFinish`, `SilentIff`).
* The client renders timeouts of 100000000 ms and more with nine or ten digits, which the server ignores
  (`RenderedIsParsed`).

The code and its comments differ in one place that matters here: the cancel hook is documented as firing on
an error close, and it fires on deadline expiry as well. The model follows the code.

## Model

| member | source | states |
|---|---|---|
| ConnTheorems.WireKeepsEmissionOrder | rust/grpcuds-core/src/uds.rs:309-368 | in every reachable state, whatever partial writes and EAGAINs happened, bytes on the socket followed by the ordered tail are exactly the bytes nghttp2 and the direct path emitted, in emission order |
| ConnTheorems.StreamBytesConserved | rust/grpcuds-core/src/conn/out_queue.rs:128-288 | in every reachable state the DATA emitted for a stream, then what its queue still holds, are the gRPC frames of its accepted and not evicted messages, in order |
| ConnTheorems.NoLostResume | rust/grpcuds-core/src/conn/dispatch.rs:165-218 | in every reachable state a deferred stream has an empty queue and is not finished |
| ConnTheorems.TrailerComesLast | rust/grpcuds-core/src/conn/dispatch.rs:197-218 | once the trailer is submitted, the DATA emitted is the whole of the surviving messages, and the trailer carries the final status, with the final text if there is one that is not empty and with none otherwise |
| ConnTheorems.AtMostOnce | rust/grpcuds-core/src/conn/state.rs:379-466 | over every run no call is handed to a handler twice, no cancel hook fires twice across expiry, error close and replacement, and an installed hook has not fired |
| ConnTheorems.DataWithinIsPrefix | rust/grpcuds-core/src/uds.rs:309-368 | a stream's DATA within any first part of the connection's bytes is a prefix of all its DATA, and all of it once every byte is there |
| ConnTheorems.DeliveredIsPrefix | rust/grpcuds-core/src/client.rs:71-137 | end to end: any part of the bytes on the socket, cut into any chunks, makes the client deliver a prefix of the messages that survived the server queue |
| ConnTheorems.DeliveredInFull | rust/grpcuds-core/src/client.rs:71-137 | end to end: after the trailer, all bytes in any chunks make the client deliver all surviving messages up to the first over 4 MiB |
| ConnFlush.FlushCompletes | rust/grpcuds-core/src/uds.rs:309-368 | with room on the socket for every frame, a flush leaves no tail, no promise and no frame to come, and every byte emitted is on the socket |
| ConnFlush.DataGoesOut | rust/grpcuds-core/src/conn/dispatch.rs:165-218 | when nghttp2 asks for DATA of a stream whose response is under way and that has bytes queued, the next frame carries the first of them, as many as the window and the send path allow |
| ConnServed.PassAnswers | rust/grpcuds-core/src/conn/dispatch.rs:44-98 | a pass runs a handler for a complete request if and only if it begins with a whole frame within the limit and some entry of the table has its path: the handler of the first such entry, on the payload of that frame; with no such entry the call ends with code 12, without such a frame with code 13, whatever was decided before |
| ConnServed.LookupIsFirst | rust/grpcuds-core/src/conn/dispatch.rs:67-86 | a lookup finds an entry if and only if one has the path, and then the first that has |
| ConnServed.PolicyInForce | rust/grpcuds-core/src/conn/dispatch.rs:88-94 | after a pass a served call is under the last policy handlers installed on it from its turn on, before those the one of its first entry, and without one what it was under then |
| ConnServed.ChunksReachHandler | rust/grpcuds-core/src/conn/dispatch.rs:44-105 | from the wire to the handler: DATA chunks received for a call that together begin with the frame of a payload, in any cut and any interleaving with other events, make the handler of the path received run on that payload |
| ConnReceipt.RequestIsWhatArrived | rust/grpcuds-core/src/conn/callbacks.rs:95-169 | over every run: the request of a call that stays open is what it was followed by all DATA received for it, in the order of arrival, and so is its path |
| ConnReceipt.ReceivedIsWhatArrived | rust/grpcuds-core/src/conn/callbacks.rs:146-169 | the same for one batch of received events none of which fails |
| ConnReceipt.OpensEmpty | rust/grpcuds-core/src/conn/callbacks.rs:58-93 | a call just opened has an empty request and an empty path |
| ConnWrites.PassTakes | rust/grpcuds-core/src/conn/dispatch.rs:88-128 | over a whole pass, on a call whose queue never rejects: accepted are the messages the handlers write on it, in pass order, up to its first finish or its refusal, and no others |
| ConnRequests.DispatchInvokes | rust/grpcuds-core/src/conn/dispatch.rs:36-132 | one pass adds exactly one invocation for each answerable request, in list order, whatever the handlers do to other calls meanwhile; PassAnswers says which those are in terms of the method table and the request bytes |
| ConnRequests.HandlersSawFirstFrame | rust/grpcuds-core/src/conn/dispatch.rs:44-105 | in every reachable state the request bytes of a call that had its handler run begin with the frame of exactly the payload the handler got |
| ConnRuns.NextKeeps | rust/grpcuds-core/src/uds.rs:244-368 | each event (peer frames, call operations, close, hook, dispatch, expiry, flush) keeps the connection invariant |
| ConnRuns.EveryRunKeeps | rust/grpcuds-core/src/uds.rs:244-368 | the connection invariant (distinct ids, per-stream byte conservation, wire order, pinned promise, single-use hooks, single dispatch) holds after every allowed run |
| ConnHistory.NextFollows | rust/grpcuds-core/src/conn/state.rs:286-404 | each event changes each call only as it may: shipped bytes, accepted messages and request grow, an outcome appears or changes only by what the event decides, and only a policy change touches the bound |
| ConnDecisions.WhatDecides | rust/grpcuds-core/src/conn/state.rs:335-404 | over one event of any reachable state: a call goes from undecided to decided only by a finish on it, by a pass as PassDecidesFirst says, or by its own due deadline, with exactly that status and text |
| ConnDecisions.FirstDecisionStands | rust/grpcuds-core/src/conn/state.rs:335-404 | over every run: from dispatch on, the outcome a call ends with is the one decided by the first event that found it undecided and decided it |
| ConnDecisions.DecisionReachesClient | rust/grpcuds-core/src/conn/dispatch.rs:197-218 | end to end: whatever decides a dispatched call, once the response ends the client is told that status, and that text if it is UTF-8 and not empty: those of the finish, of the first finish in pass order, or 4 and "deadline exceeded"; a refusal comes with the text of the first finish before it |
| ConnDecisions.OutcomeGoesOut | rust/grpcuds-core/src/conn/dispatch.rs:197-218 | a settled outcome is the one the trailer carries after any run |
| ConnDecisions.CodeStatus | rust/grpcuds-core/src/conn/dispatch.rs:145-155 | a code from 1 to 16 is the status itself, any other non-zero code gives 2 |
| ConnDecisions.PassDecidesFirst | rust/grpcuds-core/src/conn/dispatch.rs:36-143 | over a whole pass: an undecided call is decided by the first finish on it in pass order, the non-zero code of its own handler included; a refused one gets the refusal status, with the text of the first finish before it or none |
| ConnDecisions.RefusedUndecided | rust/grpcuds-core/src/conn/dispatch.rs:135-143 | the refusal of an undecided call gives its status and no text |
| ConnDecisions.HandlerDecidesFirst | rust/grpcuds-core/src/conn/dispatch.rs:95-116 | inside a pass: the first finish among the handler's calls decides its own call; else a code from 1 to 16 is its status and any other non-zero code gives status 2; else it stays open |
| ConnDecisions.TextComesBack | rust/grpcuds-core/src/conn/state.rs:349-358 | the text of a finish is what the client shows if it is UTF-8; an empty one is not sent |
| ConnDecisions.BoundHolds | rust/grpcuds-core/src/conn/state.rs:488-497 | over every run: a call within its bound stays within it, with at most one message more, until a policy is installed on it |
| ConnDecisions.EarlyFinishSurvivesIff | rust/grpcuds-core/src/conn/dispatch.rs:36-143 | a status given before dispatch survives the pass if and only if a handler is run for the call or the refusal carries the same status; the text survives either way |
| ConnDecisions.EarlyFinishCanBeLost | rust/grpcuds-core/src/conn/dispatch.rs:135-143 | a run from a fresh connection that finishes a call OK with a text and sends it out INTERNAL with that text |
| ConnHistory.EveryRunFollows | rust/grpcuds-core/src/conn/state.rs:286-404 | over every run each call keeps its identity, its shipped bytes and accepted messages only grow, and a decided outcome stays |
| ConnHistory.SettledIsFinal | rust/grpcuds-core/src/conn/state.rs:335-404 | once a dispatched call is finished, no later event of any run changes its status or text or accepts another message |
| QueueProofs.EveryRunConserves | rust/grpcuds-core/src/conn/out_queue.rs:128-288 | over every run of enqueues, copy drains, promises, consumes and policy changes, bytes shipped then bytes queued are the frames of the survivors, and the survivors are a subsequence of the accepted messages |
| QueueProofs.Conservation | rust/grpcuds-core/src/conn/out_queue.rs:128-288 | the conservation law follows from the queue holding the last survivors untouched behind a partly shipped head |
| QueueProofs.EnqueueKeepsBytes | rust/grpcuds-core/src/conn/out_queue.rs:208-254 | enqueue, with or without an eviction, disturbs neither the head in flight nor anything shipped |
| QueueProofs.DrainKeepsBytes | rust/grpcuds-core/src/conn/out_queue.rs:257-288 | a copy drain of any window hands out exactly the next bytes and leaves exactly the rest |
| QueueProofs.AdvanceKeepsBytes | rust/grpcuds-core/src/conn/out_queue.rs:257-288 | shipping any part of the head, header or payload or across both, and popping a completed head keeps conservation |
| QueueProofs.ConsumeKeepsBytes | rust/grpcuds-core/src/conn/out_queue.rs:180-193 | consuming a promise keeps conservation |
| QueueProofs.EnqueueCounts | rust/grpcuds-core/src/conn/out_queue.rs:208-254 | at capacity the index to drop always exists and the unstarted count is unchanged; otherwise it grows by at most one |
| QueueProofs.EveryRunKeepsNewest | rust/grpcuds-core/src/conn/out_queue.rs:128-254 | over every run the unstarted messages are exactly the newest accepted ones |
| QueueProofs.CapacityHolds | rust/grpcuds-core/src/conn/out_queue.rs:208-254 | a bound met when installed is met in every later state, with at most one message more in the queue |
| QueueProofs.PolicyBoundIff | rust/grpcuds-core/src/conn/state.rs:488-497 | a bound installed on a queue holds in every later state of every run if and only if the queue was within it at the installation; over k unstarted messages the count stays within the larger of k and the bound |
| QueueProofs.CountStaysBelow | rust/grpcuds-core/src/conn/out_queue.rs:208-254 | under one policy the unstarted count never passes the larger of the capacity and what it was |
| QueueProofs.NeverTrimmed | rust/grpcuds-core/src/conn/out_queue.rs:216-246 | enqueueing alone never brings an over-full queue back under its bound |
| QueueProofs.BoundCanBeExceeded | rust/grpcuds-core/src/conn/out_queue.rs:216-246 | a concrete run: three messages, a bound of one installed, one more message, three unstarted |
| QueueProofs.EnqueueRecords | rust/grpcuds-core/src/conn/out_queue.rs:208-254 | an accepted message removes exactly the oldest unstarted one when the queue is full, and comes last |
| QueueAdmission.OnlyRejectRefuses | rust/grpcuds-core/src/conn/out_queue.rs:208-254 | over every run of a queue that never has a rejecting policy, the accepted messages are all messages of at most 2^32-1 bytes that were enqueued, in order |
| QueueAdmission.EnqueueOutcome | rust/grpcuds-core/src/conn/out_queue.rs:208-254 | an enqueue is refused, changing nothing, exactly for a longer message or a rejecting queue with capacity unstarted messages; at capacity a dropping queue loses exactly its oldest unstarted message, and below capacity none is lost |
| QueueAdmission.UnstartedMeans | rust/grpcuds-core/src/conn/out_queue.rs:128-136 | the unstarted messages are the survivors no byte of which has been shipped, a promised head aside |
| QueuePaths.NoCopyRefinesCopy | rust/grpcuds-core/src/conn/out_queue.rs:148-288 | promise n bytes, let the application enqueue and change policies at will, send them: same accepted, same evicted, same bytes shipped and left as copying n bytes first |
| QueuePaths.EveryMixIsCopy | rust/grpcuds-core/src/conn/dispatch.rs:181-196 | over every run in which each shipment takes either path, accepted messages, survivors, bytes shipped and bytes left are those of the run that copies everything |
| QueuePaths.DrainStarts | rust/grpcuds-core/src/conn/out_queue.rs:257-288 | which messages a copy of any window leaves unstarted |
| QueueProofs.RejectLosesNothing | rust/grpcuds-core/src/conn/out_queue.rs:215-254 | without DropOldest every accepted message survives every run |
| QueueProofs.ConsumeUnstartsIff | rust/grpcuds-core/src/conn/out_queue.rs:180-193 | consuming a promise turns the head back into an unstarted message if and only if the consume is empty and the head untouched |
| QueueProofs.DrainNeverUnstarts | rust/grpcuds-core/src/conn/out_queue.rs:257-288 | a copy drain never raises the unstarted count |
| QueueProofs.StepKeepsOk | rust/grpcuds-core/src/conn/out_queue.rs:128-288 | every operation keeps the queue guarantees; the unstarted count rises only on enqueue |
| QueueProofs.StepKeepsHistory | rust/grpcuds-core/src/conn/out_queue.rs:128-288 | every operation, an empty consume included, keeps byte conservation |
| QueueProofs.PromiseIsPinned | rust/grpcuds-core/src/conn/out_queue.rs:148-193 | between promise and consume any enqueues, evictions and policy changes leave the promised bytes as they were |
| QueueProofs.FreshOk | rust/grpcuds-core/src/conn/out_queue.rs:111-122 | a new queue meets the guarantees |
| OutQueueObject.OutQueue.constructor | rust/grpcuds-core/src/conn/out_queue.rs:111-122 | a new queue is the empty one |
| OutQueueObject.OutQueue.FrontLeft | rust/grpcuds-core/src/conn/out_queue.rs:138-143 | the bytes of the head still to go, as a part of the pending bytes |
| OutQueueObject.OutQueue.PromiseFront | rust/grpcuds-core/src/conn/out_queue.rs:148-154 | pins the head and returns the promised length |
| OutQueueObject.OutQueue.FrontRegions | rust/grpcuds-core/src/conn/out_queue.rs:160-176 | header part then payload part are exactly the promised bytes, each from its own region |
| OutQueueObject.OutQueue.ConsumeFront | rust/grpcuds-core/src/conn/out_queue.rs:180-193 | refines the consume step of the queue model |
| OutQueueObject.OutQueue.EnqueueOwned | rust/grpcuds-core/src/conn/out_queue.rs:208-254 | reports QueueFull, changing nothing, exactly for a message over 2^32-1 bytes or a rejecting queue with capacity unstarted messages; otherwise the message is last in the queue, which grows unless it drops at capacity; refines the enqueue step |
| OutQueueObject.OutQueue.ShipHeaderPart | rust/grpcuds-core/src/conn/out_queue.rs:264-275 | copies the header bytes that fit and nothing else |
| OutQueueObject.OutQueue.ShipBodyPart | rust/grpcuds-core/src/conn/out_queue.rs:276-285 | copies the payload bytes that fit and pops a completed head |
| OutQueueObject.OutQueue.DrainInto | rust/grpcuds-core/src/conn/out_queue.rs:257-288 | the in-place loop fills the buffer with the next queued bytes, leaves the rest of it alone, and refines the drain step |
| OutQueueObject.HeaderThenBody | rust/grpcuds-core/src/conn/out_queue.rs:257-288 | copying the header first and the payload next is one round of the drain |
| StreamProofs.ChangeKeeps | rust/grpcuds-core/src/conn/callbacks.rs:95-169 | headers, frames, data chunks and call operations keep the stream invariant |
| StreamProofs.RefuseKeeps | rust/grpcuds-core/src/conn/dispatch.rs:135-143 | a request turned away is dispatched, finished and submitted |
| StreamProofs.ReturnKeeps | rust/grpcuds-core/src/conn/dispatch.rs:107-128 | the handler return and the response submission keep the stream invariant |
| StreamProofs.ReadKeeps | rust/grpcuds-core/src/conn/dispatch.rs:165-218 | each read keeps the stream invariant: defer only when idle, end only when all is shipped |
| StreamProofs.EmptyDrainEmpties | rust/grpcuds-core/src/conn/dispatch.rs:192-197 | with a positive window a drain that yields no byte leaves no message, so EOF cannot be reported over a waiting message |
| StreamProofs.SendKeeps | rust/grpcuds-core/src/conn/callbacks.rs:224-312 | a direct send keeps the stream invariant |
| ConnProofs.FreshConnOk | rust/grpcuds-core/src/conn/state.rs:194-215 | a new connection meets the invariant |
| ConnProofs.OpenKeeps | rust/grpcuds-core/src/conn/callbacks.rs:58-93 | a stream with a fresh id keeps the invariant |
| ConnProofs.OnStreamKeeps | rust/grpcuds-core/src/conn/callbacks.rs:95-169 | an event on one stream keeps the invariant of the connection |
| ConnProofs.HookSetKeeps | rust/grpcuds-core/src/conn/state.rs:449-466 | installing or replacing a hook keeps hooks single-use |
| ConnProofs.CloseKeeps | rust/grpcuds-core/src/conn/callbacks.rs:314-340 | swap-removing a closed stream keeps every other stream, the history and the hooks |
| DispatchProofs.DispatchFromKeeps | rust/grpcuds-core/src/conn/dispatch.rs:36-132 | a pass keeps the invariant and leaves no stream Complete, whatever the handlers do on any call |
| DispatchProofs.DispatchIsIdempotent | rust/grpcuds-core/src/conn/dispatch.rs:36-132 | a second pass, with any handlers, changes nothing |
| DispatchProofs.PayloadIsFirstFrame | rust/grpcuds-core/src/conn/dispatch.rs:44-64 | an accepted request begins with the frame of its payload, within the limit |
| DispatchProofs.FirstFrameIsPayload | rust/grpcuds-core/src/conn/dispatch.rs:44-64 | every request beginning with a whole frame within the limit is accepted with that payload, whatever follows |
| DeadlineProofs.SweptAt | rust/grpcuds-core/src/conn/state.rs:379-404 | a stream is expired by a sweep exactly if it is due and fewer than the batch of due ones precede it; every other stream is untouched |
| DeadlineProofs.SweepCounts | rust/grpcuds-core/src/conn/state.rs:379-404 | one sweep lowers the number of due calls by the smaller of eight and that number |
| DeadlineProofs.SweepsNeeded | rust/grpcuds-core/src/conn/state.rs:379-404 | nothing is due after n sweeps if and only if at most 8n calls were |
| DeadlineProofs.SweepEnds | rust/grpcuds-core/src/conn/state.rs:379-404 | one sweep ends the first eight due calls with code 4, disarmed and without a hook, fires exactly the hooks of those calls, and leaves every other call alone |
| DeadlineProofs.SweptHooksAre | rust/grpcuds-core/src/conn/state.rs:379-404 | a hook fires in a sweep if and only if it is the hook of a call the sweep expires |
| DeadlineProofs.NextDeadlineMs | rust/grpcuds-core/src/conn/state.rs:424-433 | None if and only if nothing is armed, otherwise the time to the earliest armed deadline, and Some(0) if and only if a sweep has work |
| DeadlineProofs.SweepKeeps | rust/grpcuds-core/src/conn/state.rs:379-404 | a sweep keeps the connection invariant |
| DeadlineProofs.SweptFromIs | rust/grpcuds-core/src/conn/state.rs:379-404 | the stream-by-stream sweep with its hooks is the one-shot description of it |
| OutputProofs.NeverStale | rust/grpcuds-core/src/conn/callbacks.rs:217-223 | the stale-promise branch is unreachable: the stream is gone, or its head still holds, byte for byte, what was promised |
| OutputProofs.SendKeepsAll | rust/grpcuds-core/src/conn/callbacks.rs:184-312 | a direct send of any size keeps order and conservation, leaves a tail exactly when it pauses, and would-block changes nothing |
| OutputProofs.ReadKeepsAll | rust/grpcuds-core/src/conn/dispatch.rs:165-218 | copy, promise, end and defer all keep the invariant with the chunk in hand |
| OutputProofs.EmitKeepsData | rust/grpcuds-core/src/conn/callbacks.rs:224-312 | a DATA frame extends its own stream's record and no other |
| OutputProofs.PullKeeps | rust/grpcuds-core/src/conn/state.rs:558-572 | a pull keeps order and conservation through any mix of direct frames and chunks, and gives no chunk only at the end or at a full socket |
| OutputProofs.FlushKeeps | rust/grpcuds-core/src/uds.rs:309-368 | a flush keeps the connection invariant for every script and every socket |
| OutputProofs.FlushStops | rust/grpcuds-core/src/uds.rs:309-368 | a flush leaves frames behind only with a tail or a promise waiting for the socket |
| Connection.Conn.constructor | rust/grpcuds-core/src/conn/state.rs:194-215 | a new connection object is the fresh state |
| Connection.Conn.OnBeginHeaders | rust/grpcuds-core/src/conn/callbacks.rs:58-93 | the new call is found by its id, has no request, path, deadline, hook or queued message, and an unbounded queue; every other call is as before; a fresh id keeps the connection invariant |
| Connection.Conn.OnHeader | rust/grpcuds-core/src/conn/callbacks.rs:95-125 | the path grows by the value received; a deadline is at least the duration on the wire ahead and at most 1 ms more, and is absent exactly for a malformed value; other headers and other calls are untouched; keeps the connection invariant |
| Connection.Conn.OnFrameRecv | rust/grpcuds-core/src/conn/callbacks.rs:127-144 | a frame with END_STREAM completes the request, HEADERS without it open the body, nothing else changes; keeps the connection invariant, and a frame that ends a request adds exactly one to what the next pass takes up |
| Connection.Conn.OnDataChunkRecv | rust/grpcuds-core/src/conn/callbacks.rs:146-169 | fails exactly when the request would outgrow the limit, then changing nothing; otherwise the request of the call is what it was followed by the data and no other call changes; a request within the limit stays within it |
| Connection.Conn.Recv | rust/grpcuds-core/src/conn/state.rs:534-549 | feeds received events to the callbacks and stops the session at the first one that fails |
| ConnRuns.ReceivedIsRun | rust/grpcuds-core/src/conn/state.rs:534-549 | what was received is a run of all events, or of those before the first that fails, and no request is over the limit |
| Connection.Conn.OnStreamClose | rust/grpcuds-core/src/conn/callbacks.rs:314-340 | exactly the one call leaves the list; its hook, if it has one, fires exactly when the code is not zero, and no other hook does; an unknown id changes nothing |
| Connection.Conn.WriteCall | rust/grpcuds-core/src/conn/state.rs:286-314 | through the queue object: Ok means the message is on record and the stream not left deferred, StreamFinished that the call was finished, QueueFull that the message is over 2^32-1 bytes or a rejecting queue is at capacity; any reply but Ok that nothing changed; keeps the connection invariant |
| Connection.Conn.FinishCall | rust/grpcuds-core/src/conn/state.rs:335-371 | the first finish sets the status, and the percent-encoded text if that is not empty; a later one replies Ok and changes neither; a deferred response is resumed; keeps the connection invariant |
| Connection.Conn.SetStreamPolicy | rust/grpcuds-core/src/conn/state.rs:488-497 | no queued message and no survivor of any call changes; keeps the connection invariant |
| Connection.Conn.SetCancelHook | rust/grpcuds-core/src/conn/state.rs:449-466 | the hook never fired and no other call holds it; the one it replaces has not fired and is held nowhere any more |
| Connection.Conn.RunHandler | rust/grpcuds-core/src/conn/dispatch.rs:100-105 | the calls a handler makes, in order |
| Connection.Conn.SubmitResponseFor | rust/grpcuds-core/src/conn/state.rs:499-523 | a dispatched call awaiting its response is started and readable if and only if nghttp2 took it; keeps the connection invariant |
| Connection.Conn.InvokeHandler | rust/grpcuds-core/src/conn/dispatch.rs:88-128 | policy, handler, auto-finish and submission in source order are the model's handler run |
| Connection.Conn.HandlerCameBack | rust/grpcuds-core/src/conn/dispatch.rs:107-128 | a non-zero code finishes a call left open, with the code itself from 1 to 16 and 2 otherwise; the call is Dispatched if its response was started or is taken, Cancelled otherwise |
| Connection.Conn.Refuse | rust/grpcuds-core/src/conn/dispatch.rs:135-143 | stamps the status, submits, keeps the connection invariant |
| Connection.Conn.DispatchStream | rust/grpcuds-core/src/conn/dispatch.rs:41-129 | a complete request goes to the handler of the first entry with its path, on the payload of its first frame; with no such entry it ends with code 12, without a whole frame within the limit with code 13; any other call is passed over |
| Connection.Conn.Dispatch | rust/grpcuds-core/src/conn/dispatch.rs:36-132 | refines the pass, leaves nothing Complete and counts the requests taken up |
| Connection.Conn.CollectDue | rust/grpcuds-core/src/conn/state.rs:381-399 | the batch loop disarms, fires and notes the first eight due streams |
| Connection.Conn.FinishExpired | rust/grpcuds-core/src/conn/state.rs:400-403 | finishing by id, one after the other |
| Connection.Conn.ExpireDeadlines | rust/grpcuds-core/src/conn/state.rs:379-404 | the two phases together are one sweep |
| Connection.TwoPhases | rust/grpcuds-core/src/conn/state.rs:379-404 | finishing the collected ids later gives the same list as expiring each stream on the spot, because ids are distinct |
| Connection.Conn.DataProviderRead | rust/grpcuds-core/src/conn/dispatch.rs:165-218 | the read callback run on the queue object and a real buffer: in place exactly with a socket and 4096 bytes of head left, shipping nothing yet; what is copied out is what counts as shipped, at most the window; with nothing to copy the trailer takes the final status and any non-empty text if the call is finished, else the stream is deferred |
| Connection.Conn.UnsentTail | rust/grpcuds-core/src/conn/callbacks.rs:274-291 | the tail rebuilt from header, header part and payload part is the frame without its sent bytes, wherever the cut falls |
| Connection.Conn.WriteFrame | rust/grpcuds-core/src/conn/callbacks.rs:224-295 | one scatter write: the bytes taken reach the socket, the rest is the tail |
| Connection.Conn.ConsumePromised | rust/grpcuds-core/src/conn/callbacks.rs:297-297 | the promised bytes leave the queue object |
| Connection.Conn.ShipFrame | rust/grpcuds-core/src/conn/callbacks.rs:224-312 | a frame counts as sent, its unsent bytes become the tail |
| Connection.Conn.SendData | rust/grpcuds-core/src/conn/callbacks.rs:184-312 | the send callback run on the queue object's regions: would-block, stream gone, pause and sent; the frame emitted carries exactly the promised bytes |
| Connection.Conn.PullChunk | rust/grpcuds-core/src/conn/state.rs:558-572 | refines the pull through the callbacks |
| Connection.Conn.WriteSome | rust/grpcuds-core/src/uds.rs:64-92 | sends until everything is out or the socket is full |
| Connection.Conn.FlushWrites | rust/grpcuds-core/src/uds.rs:309-368 | refines the flush and keeps the connection invariant |
| Framing.EncodeHeaderInto | rust/grpcuds-core/src/framing.rs:37-44 | the in-place writer fills the array with the encoded header |
| Framing.HeaderRoundTrip | rust/grpcuds-core/src/framing.rs:37-65 | decoding an encoded header gives the length, or Compressed, or TooLarge exactly over the cap, whatever bytes follow |
| Framing.HeaderIsCanonical | rust/grpcuds-core/src/framing.rs:49-65 | a header the decoder accepts is the one the encoder writes |
| Framing.HeaderIsBigEndian | rust/grpcuds-core/src/framing.rs:37-44 | the encoded header is a zero byte and the length, most significant byte first |
| Framing.Be32RoundTrip | rust/grpcuds-core/src/framing.rs:37-60 | big-endian encoding inverts |
| Framing.FromBe32RoundTrip | rust/grpcuds-core/src/framing.rs:37-60 | big-endian decoding inverts |
| Framing.DecodeHeaderStable | rust/grpcuds-core/src/framing.rs:47-50 | bytes after the fifth never matter |
| Deframing.CallState.Deframe | rust/grpcuds-core/src/client.rs:71-86 | the loop takes out every complete acceptable frame and keeps the rest |
| Deframing.CallState.OnData | rust/grpcuds-core/src/client.rs:123-137 | a chunk is appended, then deframed |
| Deframing.DeframedInTwo | rust/grpcuds-core/src/client.rs:71-86 | deframing in two instalments gives what deframing at once gives |
| Deframing.ChunkingIsInvisible | rust/grpcuds-core/src/client.rs:71-137 | every way of cutting bytes into chunks gives the same messages and the same waiting bytes |
| Deframing.RefusedIsFinal | rust/grpcuds-core/src/client.rs:71-86 | after a compressed or oversized header nothing is ever delivered again |
| Deframing.DeframedInvertsFrames | rust/grpcuds-core/src/client.rs:71-86 | deframing inverts framing up to the first message over 4 MiB |
| Deframing.PrefixDeliversPrefix | rust/grpcuds-core/src/client.rs:71-137 | any prefix of the frames in any chunks delivers a prefix of the messages |
| Percent.EncodeMessage | rust/grpcuds-core/src/headers.rs:152-163 | the loop computes the encoding |
| Percent.DecodeMessage | rust/grpcuds-core/src/client.rs:778-795 | the loop ends on every input and gives the decoded bytes if they are UTF-8, nothing otherwise |
| Percent.ShownIff | rust/grpcuds-core/src/client.rs:778-795 | end to end: the client shows a message as it was given if and only if it is the UTF-8 of some text, and nothing otherwise |
| Utf8.ValidIsText | rust/grpcuds-core/src/client.rs:794-794 | what the UTF-8 grammar accepts is the encoding of a text |
| Utf8.TextIsValid | rust/grpcuds-core/src/client.rs:794-794 | the encoding of every text is accepted |
| Percent.RoundTrip | rust/grpcuds-core/src/headers.rs:152-163 | every byte string decodes back from its encoding, which is printable ASCII throughout |
| Percent.PrintableIsItself | rust/grpcuds-core/src/headers.rs:152-163 | printable ASCII without a percent sign is its own encoding and its own decoding |
| Percent.OthersAreEscaped | rust/grpcuds-core/src/headers.rs:152-163 | any other byte is a percent sign and its two upper-case digits |
| Percent.DigitsOfEitherCase | rust/grpcuds-core/src/client.rs:778-795 | the decoder takes the sixteen digits in either case and no other byte |
| Percent.StrayPercent | rust/grpcuds-core/src/client.rs:778-795 | a percent sign without two digits after it stands for itself |
| Percent.EncodedInjective | rust/grpcuds-core/src/headers.rs:152-163 | different messages never share an encoding |
| Timeouts.ParseGrpcTimeoutMs | rust/grpcuds-core/src/headers.rs:318-340 | accepts exactly one to eight digits and a unit, and returns the whole milliseconds covering the duration, at least one |
| Timeouts.DeadlineIsTight | rust/grpcuds-core/src/headers.rs:318-340 | the deadline is never shorter than the wire duration, at most 1 ms longer, and saturation is not reached |
| Timeouts.UnitLadder | rust/grpcuds-core/src/headers.rs:318-340 | the six unit letters stand for hour, minute, second, millisecond, microsecond and nanosecond, and no other byte is a unit |
| Timeouts.FmtMsValue | rust/grpcuds-core/src/client.rs:746-769 | the digit loop writes the decimal form and the unit into the buffer |
| Timeouts.RenderedIsParsed | rust/grpcuds-core/src/client.rs:746-769 | the server reads back max(ms, 1) if ms is below 100000000 and nothing otherwise |
| HealthCodec.OrShiftedIsSum | rust/grpcuds-ffi-impl/src/health.rs:84-84 | the 64-bit OR of a shifted group, defined bit by bit, is a sum when the accumulator lies below the shift |
| HealthCodec.OrSplit | rust/grpcuds-ffi-impl/src/health.rs:84-84 | OR joins two words bit by bit above any bit and leaves the bits below it alone |
| HealthCodec.ContinuationByte | cpp/include/grpcudspp/health.h:61-61 | the truncated length byte ORed with 0x80 is its low seven bits and 0x80 |
| HealthCodec.RustVarint | rust/grpcuds-ffi-impl/src/health.rs:77-90 | the loop reads one varint of at most ten groups, modulo 64 bits |
| HealthCodec.CppVarint | cpp/include/grpcudspp/health.h:75-85 | the differently shaped loop reads the same varint |
| HealthCodec.DecodeCheckRequestRust | rust/grpcuds-ffi-impl/src/health.rs:67-100 | computes the reference decoding |
| HealthCodec.DecodeCheckRequestCpp | cpp/include/grpcudspp/health.h:69-91 | accepts exactly what the reference decoding accepts, with the same service, hence agrees with the Rust decoder on every input |
| HealthCodec.EncodeCheckRequest | cpp/include/grpcudspp/health.h:55-67 | the shift loop computes the reference encoding |
| HealthCodec.VarintRoundTrip | cpp/include/grpcudspp/health.h:60-84 | reading the groups of a length from any shift gives the length |
| HealthCodec.RoundTrip | cpp/include/grpcudspp/health.h:55-91 | every service name survives encoding and either decoder |
| HealthFields.AcceptedIff | rust/grpcuds-ffi-impl/src/health.rs:67-100 | a byte string is accepted if and only if it is a sequence of fields: the tag, a length of at most ten bytes, and a body of that length modulo 64 bits |
| HealthFields.LastFieldWins | rust/grpcuds-ffi-impl/src/health.rs:67-100 | of such a sequence the service is the body of the last field, and empty if there is none |
| HealthFields.ReadsNumber | rust/grpcuds-ffi-impl/src/health.rs:77-90 | the number read is the sum of its seven-bit groups, least significant first, without the bits above the 64th |
| HandleMailbox.Mailbox.WakeupFd | rust/grpcuds-ffi-impl/src/mailbox.rs:118-136 | creates the eventfd once |
| HandleMailbox.Mailbox.RegisterIoThread | rust/grpcuds-ffi-impl/src/mailbox.rs:109-115 | the eventfd exists before the thread is published |
| HandleMailbox.Mailbox.Submit | rust/grpcuds-ffi-impl/src/server.rs:372-383 | the routing of a write or finish: direct exactly on the I/O thread or before there is one; otherwise queued, and its poke is heard |
| HandleMailbox.Mailbox.Push | rust/grpcuds-ffi-impl/src/mailbox.rs:138-206 | appends, then pokes the eventfd if there is one |
| HandleMailbox.Mailbox.TakeAll | rust/grpcuds-ffi-impl/src/mailbox.rs:223-228 | takes the whole queue |
| HandleMailbox.Mailbox.Drain | rust/grpcuds-ffi-impl/src/mailbox.rs:210-252 | clears the counter, then replays, in queue order, exactly the queued ops whose handle is neither null nor among the tombstones |
| HandleMailbox.Mailbox.RegisterCall | rust/grpcuds-ffi-impl/src/mailbox.rs:256-264 | clears exactly the tombstone of the handle |
| HandleMailbox.Mailbox.UnregisterCall | rust/grpcuds-ffi-impl/src/mailbox.rs:269-284 | nulls exactly the queued ops of the handle and buries it once |
| HandleMailbox.EveryRunKeeps | rust/grpcuds-ffi-impl/src/mailbox.rs:194-284 | the mailbox invariant holds over every interleaving of registration, routed producers, drains, frees and address-reusing accepts |
| HandleMailbox.NoLostWakeup | rust/grpcuds-ffi-impl/src/mailbox.rs:98-228 | over every interleaving of registration, producers and drains: with ops queued and no drain under way the eventfd is readable or a poke is due, and every poke finds the eventfd |
| HandleMailbox.ReplaysAreSafe | rust/grpcuds-ffi-impl/src/mailbox.rs:210-284 | ops are settled once each in push order, never on a handle that is not live; a replay reaches the owner if and only if the owner was live at the push; only ops of freed connections are dropped |
| HandleMailbox.ReplayTargetIsLive | rust/grpcuds-ffi-impl/src/mailbox.rs:229-251 | at the moment of a replay its target is live |
| HandleMailbox.FreedOpsAreNulled | rust/grpcuds-ffi-impl/src/mailbox.rs:269-284 | an op queued before its connection was freed is nulled and will be dropped |
| HandleMailbox.StaleOpCanReachAnother | rust/grpcuds-ffi-impl/src/mailbox.rs:256-264 | a concrete run where an op pushed after the free reaches the next connection at the same address |
| HandleMailbox.ScrubAgrees | rust/grpcuds-ffi-impl/src/mailbox.rs:269-284 | the scrub of the protocol and of the class are the same |
| HandleMailbox.DrainAgrees | rust/grpcuds-ffi-impl/src/mailbox.rs:229-251 | with the same tombstones the class replays exactly the entries the protocol does not drop |
| TokenMailbox.Mailbox.Push | rust/grpcuds/src/server.rs:104-113 | appends and says whether the queue was empty |
| TokenMailbox.Mailbox.TakeAll | rust/grpcuds/src/server.rs:134-139 | takes the whole queue |
| TokenMailbox.WakeStep | rust/grpcuds/src/server.rs:180-204 | every step keeps: a non-empty queue outside the tick phase has a wakeup pending |
| TokenMailbox.FinishStep | rust/grpcuds/src/server.rs:236-248 | every step keeps: at most one finish per call is queued or about to be |
| TokenMailbox.RoutesStep | rust/grpcuds/src/server.rs:572-601 | every step keeps: tokens belong to one connection and writers carry the token of theirs |
| TokenMailbox.OrderStep | rust/grpcuds/src/server.rs:623-650 | every step keeps: nothing pushed is lost, repeated or overtaken |
| TokenMailbox.GoneStep | rust/grpcuds/src/server.rs:623-664 | every step keeps: a connection has one token, and one that bounced an op has no live slot |
| TokenMailbox.BouncesIff | rust/grpcuds/src/server.rs:623-627 | an op bounces if and only if its writer's connection has no live slot |
| TokenMailbox.FindSlotFindsOrigin | rust/grpcuds/src/server.rs:623-628 | the slot found by token is the connection of the writer |
| TokenMailbox.EveryRunKeeps | rust/grpcuds/src/server.rs:511-665 | the five invariants hold over every interleaving of threads and the I/O loop |
| TokenMailbox.NoLostWakeup | rust/grpcuds/src/server.rs:180-204 | a loop in or about to enter poll with ops queued has a readable eventfd or a producer about to poke, despite the elided pokes |
| TokenMailbox.OneFinishPerCall | rust/grpcuds/src/server.rs:236-248 | across all clones and threads at most one finish per call enters the mailbox |
| TokenMailbox.AppliedWhereWritten | rust/grpcuds/src/server.rs:623-650 | ops are settled in mailbox order; one that is applied reaches the connection and call of its writer, one that bounces belongs to a connection that has no live slot from then on |
| WriterFlags.SilentIff | rust/grpcuds/src/server.rs:176-260 | the writers of a call have fallen silent for good, over every later run, if and only if it is finished or dead and no thread is past the check of the flag that would stop it |
| WriterFlags.WriteCanFollowFinish | rust/grpcuds/src/server.rs:176-248 | a concrete run in which a write that saw its call unfinished enters the mailbox behind the finish |
| WriterFlags.OverIsQuiet | rust/grpcuds/src/server.rs:176-260 | from such a state on no run pushes an op of the call |
| WriterFlags.BouncedIsDead | rust/grpcuds/src/server.rs:623-650 | over every run the call of a bounced op is marked dead |
| WriterFlags.ReplyMarks | rust/grpcuds/src/server.rs:623-650 | the op dealt with changes the flags of its own call only: dead if it bounces or is refused, overflow if the queue is full |
| WriterFlags.SparedStaysLive | rust/grpcuds/src/server.rs:652-665 | a connection with a live slot keeps one until it dies |
| Wirelog.Ipv4Checksum | rust/grpcuds-core/src/wirelog.rs:339-350 | the two loops end, the sum fits 32 bits, and the result is the complemented folded sum |
| Wirelog.Fold | rust/grpcuds-core/src/wirelog.rs:346-348 | folding keeps the sum modulo 65535, fits 16 bits, and is zero only for zero |
| Wirelog.ChecksumVerifies | rust/grpcuds-core/src/wirelog.rs:378-390 | a header that carries its own checksum checks to zero, for all other bytes |
| Wirelog.BuildRecord | rust/grpcuds-core/src/wirelog.rs:354-404 | the in-place builder lays out record header, IPv4 header, TCP header and payload, and the finished IPv4 header checks to zero |
| Wirelog.RecordReadsBack | rust/grpcuds-core/src/wirelog.rs:354-404 | a reader of the record header gets the time and the packet length twice |
| Wirelog.IpReadsBack | rust/grpcuds-core/src/wirelog.rs:354-404 | a reader of the IPv4 header gets the version, the total length, the protocol and both addresses in the direction given |
| Wirelog.TcpReadsBack | rust/grpcuds-core/src/wirelog.rs:354-404 | a reader of the TCP header gets both ports in the direction given, both numbers and the flags |
| Rotation.Rotator.constructor | rust/grpcuds-core/src/wirelog.rs:163-205 | opens the live file of whatever is on disk |
| Rotation.Rotator.OpenLive | rust/grpcuds-core/src/wirelog.rs:208-232 | writes the capture header only into an empty or new file |
| Rotation.HeaderReadsBack | rust/grpcuds-core/src/wirelog.rs:235-244 | a reader of the file header gets the magic number, version 2.4, whole packets and the raw IP link type |
| Rotation.Rotator.Rotate | rust/grpcuds-core/src/wirelog.rs:273-311 | the rename loop moves every kept file up by one, drops the last and touches no other, also with gaps on disk |
| Rotation.Rotator.AppendRecord | rust/grpcuds-core/src/wirelog.rs:315-329 | rotates first exactly when the record would overflow the live file |
| Rotation.EveryLogKeeps | rust/grpcuds-core/src/wirelog.rs:208-329 | the disk always shows the list-of-records log, within its bounds |
| Rotation.DiskKeepsNewest | rust/grpcuds-core/src/wirelog.rs:208-329 | from no files, after any records: at most keep_files files, each header plus whole records, none over max_file, oldest to newest a suffix of the records logged; once anything is dropped all but the live file are full to within one record; reopening changes nothing |

## Left out

- nghttp2 itself, HPACK and flow control: foreign code, present only as the emitter script.
- Socket set-up, accept, connect, poll and errno mapping, and the tick status returned to the host: only how many bytes a write took is modelled; a write error ends the connection in the source and has no counterpart here.
- Allocation failures: every reservation succeeds, tombstones included; so does the creation of the eventfds.
- Stream contexts are values in a list, not boxed objects: aliasing and address stability are not captured.
- Cancel hooks and handlers that re-enter dispatch or the send path: a handler may write, finish, set policies and install hooks on any call, a hook only fires.
- Events of a run may continue after a failed receive callback, where the source drops the connection: runs are a superset.
- The client beyond deframing, message decoding and timeout rendering: building the request headers, parsing `grpc-status`, reconnecting and the capped, jittered backoff. They are header lists, integer parsing and clamped arithmetic of single functions, from which no property over calls or runs follows. One call state serves all streams of a client, so isolation between overlapping calls is not claimed.
- rust/grpcuds/src/client.rs repeats the core client.
- TokenMailbox.EveryRunKeeps: tokens are unbounded numbers, lock poisoning is not modelled, and closing the server is not an action.
- HandleMailbox.EveryRunKeeps: the direct path taken by calls on the I/O thread bypasses the mailbox and is not an action.
- Memory orderings: the shared flags are read and written one atomic step at a time.
- The health registry maps a service to a status and wakes its watchers, and the response codec writes one enum in two bytes. Watchers are written to outside the lock, so under concurrent setters the last message need not be the current status, and no order is stated.
- Wirelog.BuildRecord: the clock is a parameter; the sequence-number bookkeeping of the synthetic TCP stream and the segmentation loop above it are not modelled.
- Rotation.Rotator.OpenLive: opens, renames and writes succeed completely; the disabled state after a failure, the environment variables and the path building are not modelled.
- Code generators, build scripts, logging, allocator and the thin C and C++ wrappers: no hard property.
