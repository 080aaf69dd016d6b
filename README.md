# Deflect stream core in Dafny

This project models two parts of the Deflect pixel-streaming library:

- **The server-side frame dispatcher** (`FrameDispatcher`). It keeps one receive buffer and one observer count per stream URI. It routes producer events (source added or removed, segment received, frame finished) to the buffers. It emits `pixelStreamOpened` / `pixelStreamClosed` when a stream gains its first party or loses its last one, with two exceptions the code allows: registering a stream's only source a second time emits `pixelStreamOpened` again (FrameDispatchScenarios.ReAddSourceScenario), and `removeObserver` emits `pixelStreamClosed` whenever the stream has no buffer and the observer count is 0 afterwards, even when it was 0 already: for a URI nobody opened (FrameDispatchScenarios.UnknownObserverScenario), or a second time for a stream already closed. It hands out at most one frame per consumer request, always the latest complete one.
- **The client-side send worker** (`StreamSendWorker`). Callers queue requests and get futures. A worker thread dequeues requests in batches, runs their tasks in order and sets their promises. A finish-frame request is held back until the queue has drained. Image requests are validated before anything is queued. `stop()` wakes the worker with an empty request and, once the worker has left `run()`, sets the promise of every request still queued to false.
- **The segment header record** (`SegmentParameters`) and its `DataType` codes.

Modules:

- `SegmentParams` (`segment_parameters.dfy`): the data-type codes and the parameter record with its defaults.
- `StreamTypes` (`stream_types.dfy`): segments, frames and views as values.
- `ReceiveBuffers` (`receive_buffer.dfy`): the receive buffer as an abstract value holding its sources, the round in progress, the FIFO of completed frames and the send gate. It offers exactly the operations the dispatcher calls.
- `FrameDispatch` (`frame_dispatcher.dfy`): class `FrameDispatcher`.
  - Its two maps behave like `std::map`, including the entries that `operator[]` inserts when it reads a missing key.
  - Emitted signals are appended to an `events` log.
  - `Valid()` says that every tracked buffer is well formed and has at least one source.
- `SendRequests` (`send_requests.dfy`): the pure functions and lemmas under the worker.
  - Image validation.
  - Task completion.
  - `ProcessAll`, the effect of one pass over the dequeued requests.
  - The queue invariant and what every pass and `stop()` preserve.
- `SendWorker` (`stream_send_worker.dfy`): class `StreamSendWorker`.
  - The queue is a multiset, because the lock-free queue gives no order.
  - A pass of `run()`'s loop is two steps: CheckRunning, the running test at its top, and Advance, the dequeue and the handling of the dequeued requests. Other calls, such as `stop()`'s first half, may come between them; RunIteration is the two steps with nothing in between.
  - The caller of Advance chooses which queued requests a pass dequeues.
  - Promises live in a map from ids to `Pending | Value(b) | Error(e)`.
  - Each task carries the outcome its closure produces when it runs.
  - `Valid()` is the queue invariant:
    - every queued promise is pending;
    - no two queued requests share a promise;
    - a held finish is a finish request whose promise is pending and not queued again;
    - a worker in the dequeue is inside `run()`.
- `FrameDispatchScenarios`, `SendWorkerScenarios`: short call sequences whose outcomes follow from the contracts alone.

Where the design and the code disagree, the model follows the code:

- The finish-frame ordering is weaker than the design's promise that a request enqueued after a finish marker never runs before it. `run()` holds a dequeued finish request and keeps running every ordinary request it dequeues until a pass finds the queue empty, including requests enqueued after the finish (deflect/StreamSendWorker.cpp:80-122). SendWorkerScenarios.FinishOrderScenario shows a data request queued after a finish completing while the finish is held.
- A second finish request is not rejected when it is enqueued. `enqueueFinish` always queues it (deflect/StreamSendWorker.cpp:226-229), and `run()` sets its promise to the "Already have pending finish" exception when it dequeues it while another finish is held (deflect/StreamSendWorker.cpp:106-113; SendWorkerScenarios.SecondFinishScenario).

A race the code allows: `stop()` clears the running flag (deflect/StreamSendWorker.cpp:150), but `run()` sets it at its start (:73). If `stop()` comes before the worker thread has entered `run()`, the worker runs on instead of leaving, and `wait()` at :155 waits for it. SendWorkerScenarios.StopBeforeRunScenario shows the worker dequeuing the wake-up request and still running, with the queue empty and no finish held, so that its next pass can only block in the dequeue.

## Model

| member | source | states |
|---|---|---|
| SegmentParams.Code | deflect/SegmentParameters.h:57-64 | every data type is stored in one byte, with a value of at most 4 |
| SegmentParams.FromCode | deflect/SegmentParameters.h:57-64 | a byte names a data type exactly when it is at most 4, and that data type's code is the byte |
| SegmentParams.WireCodes | deflect/SegmentParameters.h:59-63 | rgba is 0, jpeg is 1, and yuv444, yuv422 and yuv420 follow as 2, 3 and 4 |
| SegmentParams.CodeRoundTrip | deflect/SegmentParameters.h:57-64 | decoding a data type's code gives it back, so no two data types share a code |
| SegmentParams.DefaultParameters | deflect/SegmentParameters.h:69-85 | a default record sits at the origin with zero width and height, and its data type is jpeg (code 1) |
| ReceiveBuffers.EmptyBuffer | deflect/FrameDispatcher.cpp:89 | the buffer `operator[]` creates is well formed, with no sources, no complete frame and the gate closed |
| ReceiveBuffers.AddSource | deflect/FrameDispatcher.cpp:89 | the index joins the sources; the count grows by one exactly when the index is new; frames and gate are untouched |
| ReceiveBuffers.RemoveSource | deflect/FrameDispatcher.cpp:103 | the index leaves the sources and the finished set; the count drops by one exactly when it was registered |
| ReceiveBuffers.Insert | deflect/FrameDispatcher.cpp:133 | a segment joins the round in progress exactly when its source is registered; nothing else changes |
| ReceiveBuffers.FinishFrameForSource | deflect/FrameDispatcher.cpp:143-153 | reports overflow exactly when the buffer overflowed; when the last registered source finishes, a non-empty round becomes the newest frame and a new round starts; an unregistered source changes nothing |
| ReceiveBuffers.PopFrame | deflect/FrameDispatcher.cpp:61-62 | takes the oldest complete frame, which is non-empty, and leaves the others in order |
| ReceiveBuffers.SetAllowedToSend | deflect/FrameDispatcher.cpp:165 | sets the gate and changes nothing else |
| ReceiveBuffers.RoundCompletesIffAllFinished | deflect/FrameDispatcher.cpp:136-157 | whatever the order of finish calls, a round with segments becomes exactly one frame if and only if every registered source has finished it; otherwise frames and round are unchanged |
| ReceiveBuffers.NoFrameFromEmptyRound | deflect/FrameDispatcher.cpp:136-157 | finish calls on a round without segments add no frame |
| FrameDispatch.Touch | deflect/FrameDispatcher.cpp:92 | reading an observer count through `operator[]` inserts the key and leaves every count as it was |
| FrameDispatch.Drained | deflect/FrameDispatcher.cpp:61-67 | a consumed buffer has no complete frame and a closed gate, and keeps its sources and round |
| FrameDispatch.FrameDispatcher.constructor | deflect/FrameDispatcher.cpp:77-81 | no buffers, no observers, no events |
| FrameDispatch.FrameDispatcher.ConsumeLatestFrame | deflect/FrameDispatcher.cpp:54-70 | returns the newest complete frame, which is non-empty, tagged with the URI; the FIFO is emptied and the gate closed; nothing else changes |
| FrameDispatch.FrameDispatcher.AddSource | deflect/FrameDispatcher.cpp:87-96 | registers the source, creating the buffer if needed; emits Opened exactly when the stream now has one source and no observer, so re-adding the only source emits it again |
| FrameDispatch.FrameDispatcher.RemoveSource | deflect/FrameDispatcher.cpp:98-106 | an untracked URI changes nothing; a stream that loses its last source is dropped, and Closed is emitted when it has no observer; otherwise only the buffer changes |
| FrameDispatch.FrameDispatcher.AddObserver | deflect/FrameDispatcher.cpp:108-118 | counts one more observer; emits Opened exactly when this is the first observer and the stream has no source |
| FrameDispatch.FrameDispatcher.RemoveObserver | deflect/FrameDispatcher.cpp:120-126 | counts one observer less, never below zero; Closed is emitted exactly when the stream has no buffer and no observer remains, even for a URI never seen before |
| FrameDispatch.FrameDispatcher.ProcessSegment | deflect/FrameDispatcher.cpp:128-134 | a tracked stream's buffer takes the segment; an untracked stream drops it; no event |
| FrameDispatch.FrameDispatcher.ProcessFrameFinished | deflect/FrameDispatcher.cpp:136-157 | an overflow emits BufferExceeded and changes no buffer; otherwise the frame finishes, and if the gate is open and a frame is complete the newest one is sent and the buffer drained |
| FrameDispatch.FrameDispatcher.RequestFrame | deflect/FrameDispatcher.cpp:159-168 | opens the gate of a tracked stream; a complete frame is sent at once, the newest one, and the gate closes again |
| FrameDispatch.FrameDispatcher.DeleteStream | deflect/FrameDispatcher.cpp:170-180 | a stream without sources, including one just created by `operator[]`, is dropped, and Closed is emitted when it has no observer; a stream with sources is untouched |
| FrameDispatchScenarios.CoalescingScenario | deflect/FrameDispatcher.cpp:54-70 | two frames finished before a request yield one frame holding only the newer frame's segments |
| FrameDispatchScenarios.PullScenario | deflect/FrameDispatcher.cpp:155-167 | a request made before a frame completes sends the frame when it completes; the next frame waits for a new request |
| FrameDispatchScenarios.TwoSourcesRequested | deflect/FrameDispatcher.cpp:87-96 | a second source of the same stream emits no second Opened |
| FrameDispatchScenarios.TwoSourcesWithSegments | deflect/FrameDispatcher.cpp:128-134 | segments from both sources collect in one round |
| FrameDispatchScenarios.TwoSourceScenario | deflect/FrameDispatcher.cpp:136-157 | a frame is sent only once both registered sources have finished it |
| FrameDispatchScenarios.ReAddSourceScenario | deflect/FrameDispatcher.cpp:87-96 | registering the only source twice emits Opened twice |
| FrameDispatchScenarios.UnknownObserverScenario | deflect/FrameDispatcher.cpp:120-126 | removing an observer of a URI nobody opened emits Closed |
| FrameDispatchScenarios.ObserverLifecycleScenario | deflect/FrameDispatcher.cpp:98-126 | an observer opens a stream; its source comes and goes silently; the stream closes when the observer leaves |
| FrameDispatchScenarios.OverflowScenario | deflect/FrameDispatcher.cpp:147-153 | an overflow emits BufferExceeded and sends no frame, even with the gate open |
| SendRequests.ImageRejection | deflect/StreamSendWorker.cpp:168-191 | an image is accepted exactly when no finish is pending, it is not raw in a format other than RGBA, and a compressed image has a quality from 1 to 100; the checks apply in that order with their own messages; only the pending-finish error is a runtime error |
| SendRequests.Completion | deflect/StreamSendWorker.cpp:120-137 | an ordinary request's promise is always settled (never left pending) |
| SendRequests.CompletionAtFirstFailure | deflect/StreamSendWorker.cpp:122-129 | the first task that returns false or throws decides the promise (false, or its exception); when all succeed it is true |
| SendRequests.CompletionTrueIff | deflect/StreamSendWorker.cpp:120-134 | the promise is set to true if and only if every task returns true |
| SendRequests.ExecuteTasks | deflect/StreamSendWorker.cpp:120-137 | runs the tasks in order and stops after the first that does not return true; the result is the completion, and no task after the failing one is run |
| SendRequests.FirstFinish | deflect/StreamSendWorker.cpp:102-115 | the position of the first finish request of a batch: none before it is a finish |
| SendRequests.ProcessAllFinishState | deflect/StreamSendWorker.cpp:102-115 | after a pass, a finish is held if and only if one was held before or the batch has a finish; a held finish is never replaced, and otherwise the batch's first finish is held |
| SendRequests.ProcessAllUntouched | deflect/StreamSendWorker.cpp:98-138 | a pass leaves alone every promise no dequeued request carries |
| SendRequests.ProcessAllKeys | deflect/StreamSendWorker.cpp:98-138 | a pass creates no promise |
| SendRequests.ProcessAllPromise | deflect/StreamSendWorker.cpp:98-138 | an ordinary dequeued request's promise gets its completion; a finish dequeued while another is held, or after the batch's first finish, gets "Already have pending finish"; the finish that becomes held keeps its promise as it was |
| SendRequests.EnqueueKeepsInvariant | deflect/StreamSendWorker.cpp:275-281 | queueing a request with a fresh pending promise, or with none, keeps the queue invariant |
| SendRequests.PassKeepsInvariant | deflect/StreamSendWorker.cpp:71-145 | one pass keeps the queue invariant for the requests left in the queue; it creates no promise and changes no promise already set |
| SendRequests.PassFacts | deflect/StreamSendWorker.cpp:80-100 | while a finish is held, it stays held with the same request until a pass finds the queue empty; that pass runs its tasks and sets its promise to their completion |
| SendRequests.Cancelled | deflect/StreamSendWorker.cpp:157-162 | stop() sets every existing promise of a queued request, and only those, each to false |
| SendRequests.CancelStep | deflect/StreamSendWorker.cpp:158-161 | dequeuing one more request during stop() sets its promise, if it has one, to false and nothing else |
| SendRequests.StopKeepsInvariant | deflect/StreamSendWorker.cpp:157-162 | after stop() empties the queue, the invariant holds and no promise that was already set changes |
| SendWorker.StreamSendWorker.constructor | deflect/StreamSendWorker.cpp:58-64 | an empty queue, no finish held, mono view, 512x512 nominal segments |
| SendWorker.StreamSendWorker.EnqueueRequest | deflect/StreamSendWorker.cpp:275-281 | queues one request under a fresh pending promise and returns its future; nothing else changes |
| SendWorker.StreamSendWorker.EnqueueFinish | deflect/StreamSendWorker.cpp:226-229 | queues a finish-marked request whose one task sends the finish message |
| SendWorker.StreamSendWorker.EnqueueOpen | deflect/StreamSendWorker.cpp:231-237 | queues a request whose one task sends PixelStreamOpen with the protocol version |
| SendWorker.StreamSendWorker.EnqueueClose | deflect/StreamSendWorker.cpp:239-242 | queues a request whose one task sends Quit with no payload |
| SendWorker.StreamSendWorker.EnqueueObserverOpen | deflect/StreamSendWorker.cpp:244-250 | queues a request whose one task sends ObserverOpen with the protocol version |
| SendWorker.StreamSendWorker.EnqueueBindRequest | deflect/StreamSendWorker.cpp:252-259 | queues a request whose one task sends BindEventsEx when exclusive and BindEvents otherwise |
| SendWorker.StreamSendWorker.EnqueueSizeHints | deflect/StreamSendWorker.cpp:261-267 | queues a request whose one task sends the size hints |
| SendWorker.StreamSendWorker.EnqueueData | deflect/StreamSendWorker.cpp:269-273 | queues a request whose one task sends the data |
| SendWorker.StreamSendWorker.EnqueueImage | deflect/StreamSendWorker.cpp:165-224 | a rejected image, or a small one the segmenter fails on, queues nothing and returns the exception; a small image is queued as one segment without a promise and reported sent at once, followed by a finish request if asked; a larger one is queued with its finish task, if asked, under a fresh promise |
| SendWorker.StreamSendWorker.QueueImage | deflect/StreamSendWorker.cpp:193-223 | the part of enqueueImage after validation, with the same three outcomes |
| SendWorker.StreamSendWorker.StartRun | deflect/StreamSendWorker.cpp:73 | run() sets the running flag and changes nothing else |
| SendWorker.StreamSendWorker.RunIteration | deflect/StreamSendWorker.cpp:74-144 | a pass with nothing in between its steps: a stopped worker leaves the loop and changes nothing; otherwise the batch leaves the queue, and the promises and held finish become what one pass over the batch gives (the held finish released as an ordinary request when the batch is empty); the invariant is kept |
| SendWorker.StreamSendWorker.CheckRunning | deflect/StreamSendWorker.cpp:76-77 | the worker leaves `run()` exactly when the running flag is clear, and otherwise enters the dequeue; nothing else changes |
| SendWorker.StreamSendWorker.Advance | deflect/StreamSendWorker.cpp:79-143 | from the dequeue, whether or not the running flag has been cleared since the check: the batch leaves the queue, and the promises and held finish become what one pass over the batch gives; the invariant is kept |
| SendWorker.StreamSendWorker.Pass | deflect/StreamSendWorker.cpp:84-144 | releases the held finish when nothing was dequeued, then handles the dequeued requests in batch order, as ProcessAll does |
| SendWorker.StreamSendWorker.HandleAll | deflect/StreamSendWorker.cpp:102-143 | handling the dequeued requests one by one gives ProcessAll's result |
| SendWorker.StreamSendWorker.HandleRequest | deflect/StreamSendWorker.cpp:104-142 | one dequeued request: a finish is held, or rejected when one is held already; an ordinary request runs and its promise gets its completion |
| SendWorker.StreamSendWorker.BeginStop | deflect/StreamSendWorker.cpp:149-152 | clears the running flag and queues an empty wake-up request under a fresh promise |
| SendWorker.StreamSendWorker.CompleteStop | deflect/StreamSendWorker.cpp:157-162 | after the worker exits, the queue is emptied and every queued promise is set to false; the invariant holds and no promise already set changes |
| SendWorker.StreamSendWorker.CancelQueued | deflect/StreamSendWorker.cpp:157-162 | dequeuing every request left, in any order, sets exactly their promises to false |
| SendWorker.StreamSendWorker.Send | deflect/StreamSendWorker.cpp:319-324 | hands one message, with its type and wait flag, to the socket, and returns the socket's result |
| SendWorker.StreamSendWorker.SendImageView | deflect/StreamSendWorker.cpp:290-294 | sends an ImageView message with the view, waiting for the bytes to be written |
| SendWorker.StreamSendWorker.SendFinish | deflect/StreamSendWorker.cpp:314-317 | sends an empty PixelStreamFinishFrame message |
| SendWorker.StreamSendWorker.SendSegment | deflect/StreamSendWorker.cpp:296-312 | a segment carrying an exception rethrows it and sends nothing; a change of view is announced first, and a failed announcement returns false without recording the view; the segment goes out without waiting for the bytes to be written |
| SendWorkerScenarios.HeldFinishBeforeData | deflect/StreamSendWorker.cpp:102-115 | a finish dequeued alone is held, and no promise is set |
| SendWorkerScenarios.FinishOrderScenario | deflect/StreamSendWorker.cpp:80-100 | a data request queued after a finish completes while the finish is held; the finish runs only in the pass that finds the queue empty |
| SendWorkerScenarios.TwoFinishesQueued | deflect/StreamSendWorker.cpp:226-229 | two finish requests get promises 0 and 1, both pending |
| SendWorkerScenarios.SecondFinishScenario | deflect/StreamSendWorker.cpp:106-113 | a second finish in the same batch gets the "Already have pending finish" exception; the first stays held |
| SendWorkerScenarios.ImageDuringFinishScenario | deflect/StreamSendWorker.cpp:168-172 | while a finish is held, an image is refused with "Pending finish, no send allowed" and nothing is queued |
| SendWorkerScenarios.FailedImageScenario | deflect/StreamSendWorker.cpp:122-134 | when sending a large image fails, its finish task is not run and the promise is set to false |
| SendWorkerScenarios.StopScenario | deflect/StreamSendWorker.cpp:147-162 | when the worker reaches its running check only after stop() has cleared the flag, both the data request and the wake-up request stay queued and their promises are set to false |
| SendWorkerScenarios.StopBeforeRunScenario | deflect/StreamSendWorker.cpp:71-81 | when stop() runs before the worker enters run(), the worker sets the flag again, runs the wake-up request (its promise true) and does not leave the loop; its queue is then empty with no finish held |
| SendWorkerScenarios.StopWhileIdle | deflect/StreamSendWorker.cpp:76-81 | a running worker with an empty queue waits in the dequeue while a data request and stop()'s wake-up request are queued |
| SendWorkerScenarios.IdleStopScenario | deflect/StreamSendWorker.cpp:147-155 | the usual stop path: the worker waiting in the dequeue is woken, runs the data request and the wake-up request (both promises get their completion, the wake-up's true), and then leaves `run()` |

## Left out

- Socket I/O is left out. The socket's result for each send is a parameter, and a message is recorded by type, payload and wait flag, not by its header and byte layout. `MessageHeader`, `NetworkProtocol.h`, `Socket.h` and `SizeHints.h` are not part of this model.
- Real concurrency is left out: the worker thread, `quit()`/`wait()`, the blocking and non-blocking dequeues of the lock-free queue, and memory ordering. Each of a pass's two steps (CheckRunning, Advance) is atomic, and the caller of Advance chooses its batch under `Dequeueable`. A blocking dequeue is modelled by that precondition: Advance cannot happen on an empty queue while no finish is held.
- `stop()` is split into BeginStop (the flag and the wake-up request) and CompleteStop, whose precondition that the worker thread has exited stands for `wait()`.
- The destructor is not modelled on its own. It is `stop()`.
- The image segmenter (`createSingleSegment`, `generate`) and `_sendImage` are left out. `ImageSegmenter.h` is not part of this model. The single segment, or its exception, is a parameter of EnqueueImage. A task's result is a predetermined `Outcome` rather than a call of SendSegment, SendFinish or Send, so the model does not tie a queued task to the messages it produces.
- The exception caught from a task, or carried by a segment, is modelled as a `RuntimeError` with a message. The C++ exception type is not tracked.
- Closures are modelled as an `Action` naming what they send.
- SendWorker.StreamSendWorker.constructor: requires a dequeue buffer of at least one request. The source sizes it as `hardware_concurrency() / 2`, which can be 0, and the model does not cover that degenerate worker.
- The held finish request's promise is never set by `stop()`, because the source does not set it either. CompleteStop leaves that promise pending.
- RunIteration: the finish-ordering facts (a held finish stays held until a pass finds the queue empty, and then completes) are stated by PassFacts about the same functions RunIteration's contract uses, not as extra clauses of RunIteration.
- The receive buffer's own logic is left out. `ReceiveBuffer.h` and `ReceiveBuffer.cpp` are not part of this model. The buffer is abstract, and its overflow check is an oracle (`exceeded`) rather than a size bound. The abstract buffer makes choices of its own that shape what the dispatcher does, among them:
  - ReceiveBuffers.FinishFrameForSource: a round that every source finishes without any segment produces no frame. FrameDispatch.FrameDispatcher.ConsumeLatestFrame's promise of a non-empty frame, the assertion at deflect/FrameDispatcher.cpp:64, rests on this choice.
  - ReceiveBuffers.Insert: all sources share one round rather than one accumulation per source, and a source that finishes twice before the round completes changes nothing by the second finish. A source's segments of its next frame therefore join the round in progress.
  - ReceiveBuffers.Insert: a segment from a source not registered with a tracked stream is dropped.
  - ReceiveBuffers.FinishFrameForSource: the `exceeded` oracle does not depend on the buffer's state, so an overflow can be reported for a fresh buffer or for an unregistered source.
  - ReceiveBuffers.RemoveSource: removing the only source that had not yet finished leaves a round whose remaining sources have all finished, but it is not collected. It becomes a frame only at a remaining source's next finish, so a `requestFrame` in between sends nothing.
- `Frame.h`, `Segment.h`, `ImageWrapper.h` and `types.h` are not part of this model. They appear only as the fields the core reads.
- Logging to `std::cerr` in processFrameFinished is left out.
