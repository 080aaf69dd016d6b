/**
 * The send worker of a stream (deflect/StreamSendWorker.cpp): callers queue
 * requests and get futures, and a worker thread dequeues them in batches,
 * runs their tasks and sets their promises. A dequeued finish-frame request
 * is held back until a pass finds the queue empty.
 *
 * The lock-free queue gives no order, so `requests` is a multiset and the
 * caller of RunIteration plays the scheduler: it chooses which queued
 * requests one pass of the loop dequeues. Each task carries the outcome its
 * closure has when run.
 */
module SendWorker {
  import opened Optional
  import opened SegmentParams
  import opened StreamTypes
  import opened SendRequests

  class StreamSendWorker {
    /** Size of the dequeue buffer, the most requests one pass dequeues. */
    const capacity: nat
    /** Nominal segment dimensions set on the image segmenter. */
    const nominalSegmentWidth: nat
    const nominalSegmentHeight: nat

    var requests: multiset<Request>
    var running: bool
    var currentView: View
    var pendingFinish: bool
    var finishRequest: Request
    /** Every promise handed out so far, by id. */
    var promises: map<PromiseId, PromiseState>
    /** The id the next promise gets. */
    var nextPromise: PromiseId
    /** The messages handed to the socket, in order. */
    var sent: seq<Message>
    /** Whether run() is executing on the worker thread. */
    var workerActive: bool
    /** Whether the worker is past run()'s running check, in the dequeue of a pass. */
    var dequeuing: bool

    ghost predicate Valid()
      reads this
    {
      && capacity >= 1
      && (dequeuing ==> workerActive)
      && QueueInvariant(requests, promises, nextPromise, pendingFinish, finishRequest)
    }

    constructor (capacity: nat)
      requires capacity >= 1
      ensures Valid()
      ensures this.capacity == capacity
      ensures nominalSegmentWidth == SegmentSize && nominalSegmentHeight == SegmentSize
      ensures requests == multiset{} && !running && currentView == Mono && !pendingFinish
      ensures promises == map[] && nextPromise == 0 && sent == [] && !workerActive && !dequeuing
    {
      this.capacity := capacity;
      nominalSegmentWidth := SegmentSize;
      nominalSegmentHeight := SegmentSize;
      requests := multiset{};
      running := false;
      currentView := Mono;
      pendingFinish := false;
      finishRequest := Request(None, [], false);
      promises := map[];
      nextPromise := 0;
      sent := [];
      workerActive := false;
      dequeuing := false;
    }

    /** One request with a fresh pending promise was queued, and nothing else changed. */
    twostate predicate Enqueued(tasks: seq<Task>, isFinish: bool)
      reads this
    {
      && requests == old(requests) + multiset{Request(Some(old(nextPromise)), tasks, isFinish)}
      && promises == old(promises)[old(nextPromise) := Pending]
      && nextPromise == old(nextPromise) + 1
      && running == old(running) && pendingFinish == old(pendingFinish)
      && finishRequest == old(finishRequest) && currentView == old(currentView)
      && sent == old(sent) && workerActive == old(workerActive) && dequeuing == old(dequeuing)
    }

    /** Queues a request with a new promise and returns that promise's future. */
    method EnqueueRequest(tasks: seq<Task>, isFinish: bool := false) returns (f: Future)
      requires Valid()
      modifies this
      ensures Valid() && SetOnce(old(promises), promises)
      ensures Enqueued(tasks, isFinish) && f == Awaiting(old(nextPromise))
    {
      var id := nextPromise;
      EnqueueKeepsInvariant(requests, promises, nextPromise, pendingFinish, finishRequest,
                            Request(Some(id), tasks, isFinish));
      nextPromise := nextPromise + 1;
      promises := promises[id := Pending];
      requests := requests + multiset{Request(Some(id), tasks, isFinish)};
      f := Awaiting(id);
    }

    method EnqueueFinish(outcome: Outcome) returns (f: Future)
      requires Valid()
      modifies this
      ensures Valid() && SetOnce(old(promises), promises)
      ensures Enqueued([Task(SendFinishAction, outcome)], true) && f == Awaiting(old(nextPromise))
    {
      f := EnqueueRequest([Task(SendFinishAction, outcome)], true);
    }

    method EnqueueOpen(outcome: Outcome) returns (f: Future)
      requires Valid()
      modifies this
      ensures Valid() && SetOnce(old(promises), promises)
      ensures Enqueued([Task(SendAction(PixelStreamOpen, ProtocolVersion), outcome)], false)
      ensures f == Awaiting(old(nextPromise))
    {
      f := EnqueueRequest([Task(SendAction(PixelStreamOpen, ProtocolVersion), outcome)]);
    }

    method EnqueueClose(outcome: Outcome) returns (f: Future)
      requires Valid()
      modifies this
      ensures Valid() && SetOnce(old(promises), promises)
      ensures Enqueued([Task(SendAction(Quit, Empty), outcome)], false) && f == Awaiting(old(nextPromise))
    {
      f := EnqueueRequest([Task(SendAction(Quit, Empty), outcome)]);
    }

    method EnqueueObserverOpen(outcome: Outcome) returns (f: Future)
      requires Valid()
      modifies this
      ensures Valid() && SetOnce(old(promises), promises)
      ensures Enqueued([Task(SendAction(ObserverOpen, ProtocolVersion), outcome)], false)
      ensures f == Awaiting(old(nextPromise))
    {
      f := EnqueueRequest([Task(SendAction(ObserverOpen, ProtocolVersion), outcome)]);
    }

    method EnqueueBindRequest(exclusive: bool, outcome: Outcome) returns (f: Future)
      requires Valid()
      modifies this
      ensures Valid() && SetOnce(old(promises), promises)
      ensures Enqueued([Task(SendAction(if exclusive then BindEventsEx else BindEvents, Empty), outcome)], false)
      ensures f == Awaiting(old(nextPromise))
    {
      f := EnqueueRequest([Task(SendAction(if exclusive then BindEventsEx else BindEvents, Empty), outcome)]);
    }

    method EnqueueSizeHints(hints: SizeHints, outcome: Outcome) returns (f: Future)
      requires Valid()
      modifies this
      ensures Valid() && SetOnce(old(promises), promises)
      ensures Enqueued([Task(SendAction(SizeHintsMessage, HintsBytes(hints)), outcome)], false)
      ensures f == Awaiting(old(nextPromise))
    {
      f := EnqueueRequest([Task(SendAction(SizeHintsMessage, HintsBytes(hints)), outcome)]);
    }

    method EnqueueData(data: seq<uint8>, outcome: Outcome) returns (f: Future)
      requires Valid()
      modifies this
      ensures Valid() && SetOnce(old(promises), promises)
      ensures Enqueued([Task(SendAction(Data, Bytes(data)), outcome)], false) && f == Awaiting(old(nextPromise))
    {
      f := EnqueueRequest([Task(SendAction(Data, Bytes(data)), outcome)]);
    }

    /**
     * Queues an image. A rejected image, or a small one the segmenter fails
     * on (`single` is what createSingleSegment gives), queues nothing and
     * returns the exception. A small image is queued as one segment without
     * a promise and reported sent at once; a larger one is queued with its
     * finish task, if asked, under a new promise.
     */
    method EnqueueImage(image: ImageWrapper, finish: bool, single: Result<Segment, ErrorValue>,
                        sendOutcome: Outcome, finishOutcome: Outcome)
      returns (f: Future)
      requires Valid()
      modifies this
      ensures Valid() && SetOnce(old(promises), promises)
      ensures running == old(running) && pendingFinish == old(pendingFinish)
      ensures finishRequest == old(finishRequest) && currentView == old(currentView)
      ensures sent == old(sent) && workerActive == old(workerActive) && dequeuing == old(dequeuing)
      ensures ImageRejection(old(pendingFinish), image).Some? ==>
        && f == Ready(Error(ImageRejection(old(pendingFinish), image).value))
        && requests == old(requests) && promises == old(promises) && nextPromise == old(nextPromise)
      ensures ImageRejection(old(pendingFinish), image).None? && IsSmallImage(image) && single.Failure? ==>
        && f == Ready(Error(single.error))
        && requests == old(requests) && promises == old(promises) && nextPromise == old(nextPromise)
      ensures ImageRejection(old(pendingFinish), image).None? && IsSmallImage(image) && single.Success? ==>
        var segmentRequest := Request(None, [Task(SendSegmentAction(single.value), sendOutcome)], false);
        if finish then
          && f == Awaiting(old(nextPromise))
          && requests == old(requests) + multiset{segmentRequest}
                         + multiset{Request(Some(old(nextPromise)), [Task(SendFinishAction, finishOutcome)], true)}
          && promises == old(promises)[old(nextPromise) := Pending] && nextPromise == old(nextPromise) + 1
        else
          && f == Ready(Value(true))
          && requests == old(requests) + multiset{segmentRequest}
          && promises == old(promises) && nextPromise == old(nextPromise)
      ensures ImageRejection(old(pendingFinish), image).None? && !IsSmallImage(image) ==>
        && f == Awaiting(old(nextPromise))
        && requests == old(requests)
                       + multiset{Request(Some(old(nextPromise)), ImageTasks(image, finish, sendOutcome, finishOutcome), false)}
        && promises == old(promises)[old(nextPromise) := Pending] && nextPromise == old(nextPromise) + 1
    {
      if pendingFinish {
        return Ready(Error(PendingFinishError));
      }
      if image.compressionPolicy != CompressionOn && image.pixelFormat != RGBA {
        return Ready(Error(RawFormatError));
      }
      if image.compressionPolicy == CompressionOn {
        if image.compressionQuality < 1 || image.compressionQuality > 100 {
          return Ready(Error(QualityError(image.compressionQuality)));
        }
      }
      f := QueueImage(image, finish, single, sendOutcome, finishOutcome);
    }

    /** The rest of enqueueImage once the image is accepted. */
    method QueueImage(image: ImageWrapper, finish: bool, single: Result<Segment, ErrorValue>,
                      sendOutcome: Outcome, finishOutcome: Outcome)
      returns (f: Future)
      requires Valid() && ImageRejection(pendingFinish, image).None?
      modifies this
      ensures Valid() && SetOnce(old(promises), promises)
      ensures running == old(running) && pendingFinish == old(pendingFinish)
      ensures finishRequest == old(finishRequest) && currentView == old(currentView)
      ensures sent == old(sent) && workerActive == old(workerActive) && dequeuing == old(dequeuing)
      ensures IsSmallImage(image) && single.Failure? ==>
        && f == Ready(Error(single.error))
        && requests == old(requests) && promises == old(promises) && nextPromise == old(nextPromise)
      ensures IsSmallImage(image) && single.Success? ==>
        var segmentRequest := Request(None, [Task(SendSegmentAction(single.value), sendOutcome)], false);
        if finish then
          && f == Awaiting(old(nextPromise))
          && requests == old(requests) + multiset{segmentRequest}
                         + multiset{Request(Some(old(nextPromise)), [Task(SendFinishAction, finishOutcome)], true)}
          && promises == old(promises)[old(nextPromise) := Pending] && nextPromise == old(nextPromise) + 1
        else
          && f == Ready(Value(true))
          && requests == old(requests) + multiset{segmentRequest}
          && promises == old(promises) && nextPromise == old(nextPromise)
      ensures !IsSmallImage(image) ==>
        && f == Awaiting(old(nextPromise))
        && requests == old(requests)
                       + multiset{Request(Some(old(nextPromise)), ImageTasks(image, finish, sendOutcome, finishOutcome), false)}
        && promises == old(promises)[old(nextPromise) := Pending] && nextPromise == old(nextPromise) + 1
    {
      var tasks: seq<Task> := [];
      if image.width <= SmallImageSize && image.height <= SmallImageSize {
        match single {
          case Failure(e) =>
            return Ready(Error(e));
          case Success(segment) =>
            tasks := tasks + [Task(SendSegmentAction(segment), sendOutcome)];
            assert tasks == [Task(SendSegmentAction(segment), sendOutcome)];
            EnqueueKeepsInvariant(requests, promises, nextPromise, pendingFinish, finishRequest,
                                  Request(None, tasks, false));
            requests := requests + multiset{Request(None, tasks, false)};
            if finish {
              f := EnqueueFinish(finishOutcome);
              return;
            }
            return Ready(Value(true));
        }
      } else {
        tasks := tasks + [Task(SendImageAction(image), sendOutcome)];
      }
      if finish {
        tasks := tasks + [Task(SendFinishAction, finishOutcome)];
      }
      assert tasks == ImageTasks(image, finish, sendOutcome, finishOutcome);
      f := EnqueueRequest(tasks);
    }

    /** The worker thread enters run(). */
    method StartRun()
      requires Valid() && !workerActive
      modifies this
      ensures Valid() && running && workerActive && !dequeuing
      ensures requests == old(requests) && promises == old(promises) && nextPromise == old(nextPromise)
      ensures pendingFinish == old(pendingFinish) && finishRequest == old(finishRequest)
      ensures currentView == old(currentView) && sent == old(sent)
    {
      running := true;
      workerActive := true;
    }

    /**
     * What the queue may hand one pass: when no finish is held the dequeue
     * blocks until it returns at least one request; when one is held it
     * returns at once with whatever it takes, but never nothing from a
     * non-empty queue.
     */
    ghost predicate Dequeueable(batch: seq<Request>)
      reads this
    {
      && |batch| <= capacity
      && multiset(batch) <= requests
      && (requests != multiset{} ==> |batch| >= 1)
      && (!pendingFinish ==> requests != multiset{})
    }

    /**
     * One pass of run()'s loop with nothing happening between its two
     * halves: it exits when stopped; otherwise it dequeues `batch` (or, when
     * a finish is held and nothing is left, releases the held finish as an
     * ordinary request) and handles each dequeued request.
     */
    method RunIteration(batch: seq<Request>) returns (exited: bool)
      requires Valid() && workerActive && !dequeuing
      requires running ==> Dequeueable(batch)
      modifies this
      ensures Valid() && !dequeuing
      ensures exited <==> !old(running)
      ensures exited ==> !workerActive && requests == old(requests) && promises == old(promises)
                         && pendingFinish == old(pendingFinish) && finishRequest == old(finishRequest)
      ensures !exited ==>
        && workerActive && running
        && requests == old(requests) - multiset(batch)
        && LoopState(promises, pendingFinish, finishRequest) ==
           ProcessAll(PassStart(old(promises), old(pendingFinish), old(finishRequest), batch),
                      PassRequests(old(pendingFinish), old(finishRequest), batch))
      ensures nextPromise == old(nextPromise) && currentView == old(currentView) && sent == old(sent)
    {
      exited := CheckRunning();
      if !exited {
        Advance(batch);
      }
    }

    /**
     * The running check at the top of run()'s loop: a stopped worker leaves
     * run(); a running one goes on to the dequeue, where it may block.
     */
    method CheckRunning() returns (exited: bool)
      requires Valid() && workerActive && !dequeuing
      modifies this`workerActive, this`dequeuing
      ensures Valid()
      ensures exited <==> !running
      ensures exited ==> !workerActive && !dequeuing
      ensures !exited ==> workerActive && dequeuing
    {
      if !running {
        workerActive := false;
        return true;
      }
      dequeuing := true;
      exited := false;
    }

    /**
     * The rest of a pass, after the running check: the dequeue of `batch`
     * and the handling of each dequeued request. It runs to the end even
     * when stop() has cleared the running flag in the meantime.
     */
    method Advance(batch: seq<Request>)
      requires Valid() && dequeuing && Dequeueable(batch)
      modifies this
      ensures Valid()
      ensures requests == old(requests) - multiset(batch)
      ensures LoopState(promises, pendingFinish, finishRequest) ==
              ProcessAll(PassStart(old(promises), old(pendingFinish), old(finishRequest), batch),
                         PassRequests(old(pendingFinish), old(finishRequest), batch))
      ensures workerActive && !dequeuing && running == old(running)
      ensures nextPromise == old(nextPromise) && currentView == old(currentView) && sent == old(sent)
    {
      var t := Pass(promises, pendingFinish, finishRequest, batch);
      var rest := requests - multiset(batch);
      PassKeepsInvariantAt(requests, promises, nextPromise, pendingFinish, finishRequest, batch,
                           rest, t.promises, t.pendingFinish, t.finishRequest);
      requests, promises, pendingFinish, finishRequest, dequeuing :=
        rest, t.promises, t.pendingFinish, t.finishRequest, false;
      assert QueueInvariant(requests, promises, nextPromise, pendingFinish, finishRequest);
    }

    /**
     * The work of one pass on the worker's state: release the held finish
     * when nothing was dequeued, then handle the dequeued requests.
     */
    static method Pass(promises: map<PromiseId, PromiseState>, pendingFinish: bool, finishRequest: Request,
                       batch: seq<Request>)
      returns (t: LoopState)
      ensures t == ProcessAll(PassStart(promises, pendingFinish, finishRequest, batch),
                              PassRequests(pendingFinish, finishRequest, batch))
    {
      var start := LoopState(promises, pendingFinish, finishRequest);
      var dequeued := batch;
      if pendingFinish && |batch| == 0 {
        var released := finishRequest.(isFinish := false);
        dequeued := [released];
        start := LoopState(promises, false, released);
      }
      t := HandleAll(start, dequeued);
    }

    /** run()'s for loop: handles the dequeued requests in order. */
    static method HandleAll(s: LoopState, dequeued: seq<Request>) returns (t: LoopState)
      ensures t == ProcessAll(s, dequeued)
    {
      t := s;
      var i := 0;
      while i < |dequeued|
        invariant 0 <= i <= |dequeued|
        invariant t == ProcessAll(s, dequeued[..i])
      {
        t := HandleRequest(t, dequeued[i]);
        assert dequeued[..i + 1][..i] == dequeued[..i];
        i := i + 1;
      }
      assert dequeued[..i] == dequeued;
    }

    /** The body of run()'s for loop: handles one dequeued request. */
    static method HandleRequest(s: LoopState, request: Request) returns (t: LoopState)
      ensures t == ProcessRequest(s, request)
    {
      t := s;
      if request.isFinish {
        if t.pendingFinish {
          if request.promise.Some? {
            t := t.(promises := t.promises[request.promise.value := Error(AlreadyPendingError)]);
          }
        } else {
          t := t.(finishRequest := request, pendingFinish := true);
        }
      } else {
        var c, ran := ExecuteTasks(request.tasks);
        if request.promise.Some? {
          t := t.(promises := t.promises[request.promise.value := c]);
        }
      }
    }

    /** First half of stop(): clear the running flag and wake the worker with an empty request. */
    method BeginStop()
      requires Valid()
      modifies this
      ensures Valid() && SetOnce(old(promises), promises) && !running
      ensures requests == old(requests) + multiset{Request(Some(old(nextPromise)), [], false)}
      ensures promises == old(promises)[old(nextPromise) := Pending] && nextPromise == old(nextPromise) + 1
      ensures pendingFinish == old(pendingFinish) && finishRequest == old(finishRequest)
      ensures currentView == old(currentView) && sent == old(sent)
      ensures workerActive == old(workerActive) && dequeuing == old(dequeuing)
    {
      running := false;
      var wake := EnqueueRequest([]);
    }

    /**
     * Second half of stop(), once the worker thread has exited: every
     * request still queued has its promise set to false.
     */
    method CompleteStop()
      requires Valid() && !workerActive
      modifies this
      ensures Valid() && SetOnce(old(promises), promises) && requests == multiset{}
      ensures promises == old(promises) + Cancelled(old(promises), old(requests))
      ensures running == old(running) && nextPromise == old(nextPromise)
      ensures pendingFinish == old(pendingFinish) && finishRequest == old(finishRequest)
      ensures currentView == old(currentView) && sent == old(sent) && !workerActive
    {
      promises := CancelQueued(promises, requests);
      requests := multiset{};
      StopKeepsInvariant(old(requests), old(promises), old(nextPromise), old(pendingFinish),
                         old(finishRequest));
    }

    /** stop()'s loop: dequeues what is left and sets each promise to false. */
    static method CancelQueued(promises: map<PromiseId, PromiseState>, q: multiset<Request>)
      returns (p: map<PromiseId, PromiseState>)
      requires forall r {:trigger Holds(q, r)} :: Holds(q, r) && r.promise.Some? ==> r.promise.value in promises
      ensures p == promises + Cancelled(promises, q)
    {
      p := promises;
      var left := q;
      assert p == promises + Cancelled(promises, q - left) by {
        assert q - left == multiset{};
      }
      while left != multiset{}
        invariant left <= q
        invariant p == promises + Cancelled(promises, q - left)
        decreases |left|
      {
        var request :| request in left;
        assert Holds(q, request);
        CancelStep(promises, q, left, request);
        left := left - multiset{request};
        if request.promise.Some? {
          p := p[request.promise.value := Value(false)];
        }
      }
      assert q - left == q;
    }

    /** _send: hands one message to the socket, whose result is `socketOk`. */
    method Send(messageType: MessageType, payload: Payload, socketOk: bool, waitForBytesWritten: bool := true)
      returns (ok: bool)
      modifies this`sent
      ensures sent == old(sent) + [Message(messageType, payload, waitForBytesWritten)] && ok == socketOk
    {
      sent := sent + [Message(messageType, payload, waitForBytesWritten)];
      ok := socketOk;
    }

    method SendImageView(view: View, socketOk: bool) returns (ok: bool)
      modifies this`sent
      ensures sent == old(sent) + [ViewMessage(view)] && ok == socketOk
    {
      ok := Send(ImageView, ViewBytes(view), socketOk);
    }

    method SendFinish(socketOk: bool) returns (ok: bool)
      modifies this`sent
      ensures sent == old(sent) + [Message(PixelStreamFinishFrame, Empty, true)] && ok == socketOk
    {
      ok := Send(PixelStreamFinishFrame, Empty, socketOk);
    }

    /**
     * _sendSegment: a segment carrying an exception rethrows it; a change of
     * view is announced first, and a failed announcement stops there
     * without recording the new view.
     */
    method SendSegment(segment: Segment, viewSocketOk: bool, segmentSocketOk: bool) returns (o: Outcome)
      modifies this`sent, this`currentView
      ensures segment.exception.Some? ==>
        o == Throw(RuntimeError(segment.exception.value)) && sent == old(sent) && currentView == old(currentView)
      ensures segment.exception.None? && segment.view != old(currentView) && !viewSocketOk ==>
        o == Ok(false) && sent == old(sent) + [ViewMessage(segment.view)] && currentView == old(currentView)
      ensures segment.exception.None? && segment.view == old(currentView) ==>
        o == Ok(segmentSocketOk) && sent == old(sent) + [SegmentMessage(segment)] && currentView == old(currentView)
      ensures segment.exception.None? && segment.view != old(currentView) && viewSocketOk ==>
        && o == Ok(segmentSocketOk) && currentView == segment.view
        && sent == old(sent) + [ViewMessage(segment.view), SegmentMessage(segment)]
    {
      if segment.exception.Some? {
        return Throw(RuntimeError(segment.exception.value));
      }
      if segment.view != currentView {
        var viewOk := SendImageView(segment.view, viewSocketOk);
        if !viewOk {
          return Ok(false);
        }
        currentView := segment.view;
      }
      var ok := Send(PixelStream, SegmentBytes(segment.parameters, segment.imageData), segmentSocketOk, false);
      o := Ok(ok);
    }
  }
}
