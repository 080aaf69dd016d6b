/**
 * Short runs of the send worker, with the scheduler's choices written out,
 * derived from the method contracts alone.
 */
module SendWorkerScenarios {
  import opened Optional
  import opened StreamTypes
  import opened SendRequests
  import opened SendWorker

  /** The finish request of the scenarios below, and a data request. */
  function FinishRequest(id: PromiseId): Request
  {
    Request(Some(id), [Task(SendFinishAction, Ok(true))], true)
  }

  function DataRequest(id: PromiseId, dataOk: bool): Request
  {
    Request(Some(id), [Task(SendAction(Data, Bytes([])), Ok(dataOk))], false)
  }

  /**
   * A finish and then a data request are queued, and the first pass
   * dequeues the finish alone: it is held and no promise is set.
   */
  method HeldFinishBeforeData(dataOk: bool) returns (w: StreamSendWorker)
    ensures fresh(w) && w.Valid() && w.workerActive && !w.dequeuing && w.running && w.capacity == 2
    ensures w.requests == multiset{DataRequest(1, dataOk)}
    ensures w.pendingFinish && w.finishRequest == FinishRequest(0)
    ensures w.promises == map[0 := Pending, 1 := Pending]
  {
    w := new StreamSendWorker(2);
    w.StartRun();
    var finishFuture := w.EnqueueFinish(Ok(true));
    var dataFuture := w.EnqueueData([], Ok(dataOk));
    assert w.requests == multiset{FinishRequest(0), DataRequest(1, dataOk)};
    var exited := w.RunIteration([FinishRequest(0)]);
    assert [FinishRequest(0)][..0] == [];
  }

  /**
   * A finish queued before a data request is dequeued first: it is held
   * while the data request completes, and runs only in the pass that finds
   * the queue empty.
   */
  method FinishOrderScenario(dataOk: bool)
    returns (dataAfterSecondPass: PromiseState, finishAfterSecondPass: PromiseState, finishAtEnd: PromiseState)
    ensures dataAfterSecondPass == Value(dataOk)
    ensures finishAfterSecondPass == Pending
    ensures finishAtEnd == Value(true)
  {
    var w := HeldFinishBeforeData(dataOk);
    var dataRequest := DataRequest(1, dataOk);
    var exited := w.RunIteration([dataRequest]);
    assert [dataRequest][..0] == [];
    assert Completion(dataRequest.tasks) == Value(dataOk) by {
      assert dataRequest.tasks[1..] == [];
    }
    assert w.pendingFinish && w.requests == multiset{};
    dataAfterSecondPass := w.promises[1];
    finishAfterSecondPass := w.promises[0];

    exited := w.RunIteration([]);
    var released := FinishRequest(0).(isFinish := false);
    assert [released][..0] == [];
    assert Completion(released.tasks) == Value(true) by {
      assert released.tasks[1..] == [];
    }
    finishAtEnd := w.promises[0];
  }

  /** Two finish requests queued on a running worker. */
  method TwoFinishesQueued() returns (w: StreamSendWorker)
    ensures fresh(w) && w.Valid() && w.workerActive && !w.dequeuing && w.running && w.capacity == 2
    ensures w.requests == multiset([FinishRequest(0), FinishRequest(1)])
    ensures !w.pendingFinish && w.promises == map[0 := Pending, 1 := Pending]
  {
    w := new StreamSendWorker(2);
    w.StartRun();
    var f0 := w.EnqueueFinish(Ok(true));
    var f1 := w.EnqueueFinish(Ok(true));
  }

  /** A second finish dequeued while one is held gets the "already pending" exception. */
  method SecondFinishScenario() returns (first: PromiseState, second: PromiseState, held: bool)
    ensures first == Pending && second == Error(AlreadyPendingError) && held
  {
    var w := TwoFinishesQueued();
    var r0, r1 := FinishRequest(0), FinishRequest(1);
    ghost var start := LoopState(w.promises, false, w.finishRequest);
    var exited := w.RunIteration([r0, r1]);
    assert [r0, r1][..1] == [r0] && [r0][..0] == [];
    assert ProcessAll(start, [r0]) == LoopState(start.promises, true, r0);
    first, second, held := w.promises[0], w.promises[1], w.pendingFinish;
  }

  /** While a finish is held, an image is refused at once and nothing is queued. */
  method ImageDuringFinishScenario(image: ImageWrapper, single: Result<Segment, ErrorValue>)
    returns (f: Future, queued: nat)
    ensures f == Ready(Error(PendingFinishError)) && queued == 0
  {
    var w := new StreamSendWorker(1);
    w.StartRun();
    var finishFuture := w.EnqueueFinish(Ok(true));
    var r0 := FinishRequest(0);
    var exited := w.RunIteration([r0]);
    assert [r0][..0] == [];
    f := w.EnqueueImage(image, false, single, Ok(true), Ok(true));
    queued := |w.requests|;
  }

  /**
   * A large image with a finish task: when sending the image fails, the
   * finish task is not run and the promise is set to false.
   */
  method FailedImageScenario(finishOutcome: Outcome) returns (state: PromiseState)
    ensures state == Value(false)
  {
    var w := new StreamSendWorker(1);
    w.StartRun();
    var image := ImageWrapper(SmallImageSize + 1, 1, RGBA, CompressionOff, 75, Mono);
    var f := w.EnqueueImage(image, true, Failure(RuntimeError("unused")), Ok(false), finishOutcome);
    var r := Request(Some(0), ImageTasks(image, true, Ok(false), finishOutcome), false);
    assert r.tasks == [Task(SendImageAction(image), Ok(false)), Task(SendFinishAction, finishOutcome)];
    var exited := w.RunIteration([r]);
    assert [r][..0] == [];
    state := w.promises[0];
  }

  /** Stopping sets the promise of every request the worker never dequeued to false. */
  method StopScenario() returns (data: PromiseState, wake: PromiseState)
    ensures data == Value(false) && wake == Value(false)
  {
    var w := new StreamSendWorker(1);
    w.StartRun();
    var dataFuture := w.EnqueueData([1, 2], Ok(true));
    w.BeginStop();
    var exited := w.RunIteration([]);
    var queued := multiset{Request(Some(0), [Task(SendAction(Data, Bytes([1, 2])), Ok(true))], false),
                           Request(Some(1), [], false)};
    assert w.requests == queued;
    w.CompleteStop();
    assert Queued(queued, 0) by {
      assert Request(Some(0), [Task(SendAction(Data, Bytes([1, 2])), Ok(true))], false) in queued;
    }
    assert Queued(queued, 1) by {
      assert Request(Some(1), [], false) in queued;
    }
    data, wake := w.promises[0], w.promises[1];
  }

  /**
   * The worker is idle, blocked in the dequeue, when a data request and
   * then stop()'s wake-up request arrive.
   */
  method StopWhileIdle(dataOk: bool) returns (w: StreamSendWorker)
    ensures fresh(w) && w.Valid() && w.dequeuing && !w.running && w.capacity == 2
    ensures w.requests == multiset{DataRequest(0, dataOk), Request(Some(1), [], false)}
    ensures !w.pendingFinish && w.promises == map[0 := Pending, 1 := Pending]
  {
    w := new StreamSendWorker(2);
    w.StartRun();
    var exited := w.CheckRunning();
    var dataFuture := w.EnqueueData([], Ok(dataOk));
    w.BeginStop();
  }

  /**
   * The usual stop path: the woken worker runs the data request and the
   * wake-up request before it sees the cleared running flag and leaves
   * run(), so both promises get the completion of their tasks.
   */
  method IdleStopScenario(dataOk: bool) returns (data: PromiseState, wake: PromiseState, exited: bool)
    ensures data == Value(dataOk) && wake == Value(true) && exited
  {
    var w := StopWhileIdle(dataOk);
    var d, r := DataRequest(0, dataOk), Request(Some(1), [], false);
    w.Advance([d, r]);
    assert [d, r][..1] == [d] && [d][..0] == [];
    assert Completion(d.tasks) == Value(dataOk) by {
      assert d.tasks[1..] == [];
    }
    data, wake := w.promises[0], w.promises[1];
    exited := w.CheckRunning();
    w.CompleteStop();
  }

  /**
   * stop() before the worker thread has entered run(): run() sets the
   * running flag again, so the worker dequeues the wake-up request and goes
   * on running, with nothing left that could wake it.
   */
  method StopBeforeRunScenario() returns (exited: bool, running: bool, wake: PromiseState, idle: bool)
    ensures !exited && running && wake == Value(true) && idle
  {
    var w := new StreamSendWorker(1);
    w.BeginStop();
    w.StartRun();
    var r := Request(Some(0), [], false);
    assert w.requests == multiset{r};
    exited := w.RunIteration([r]);
    assert [r][..0] == [];
    running, wake := w.running, w.promises[0];
    idle := w.requests == multiset{} && !w.pendingFinish;
  }
}
