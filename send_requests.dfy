/**
 * The values the send worker handles (deflect/StreamSendWorker.h and .cpp):
 * images, messages, tasks, requests and promises, the validation of an image
 * before it is queued, and the specification of how one pass of the worker
 * loop settles the requests it dequeued.
 */
module SendRequests {
  import opened Optional
  import opened SegmentParams
  import opened StreamTypes

  /** Nominal segment dimensions given to the image segmenter. */
  const SegmentSize: nat := 512
  /** Images at most this wide and high are sent as a single segment. */
  const SmallImageSize: nat := 64

  type PromiseId = nat

  /** The exceptions the worker stores in promises or futures. */
  datatype ErrorValue = RuntimeError(msg: string) | InvalidArgument(msg: string)

  /** A promise is set at most once, to a value or to an exception. */
  datatype PromiseState = Pending | Value(value: bool) | Error(error: ErrorValue)

  /** What an enqueue returns: an already-resolved future, or the future of a promise. */
  datatype Future = Ready(state: PromiseState) | Awaiting(promise: PromiseId)

  /** The predetermined result of running a task: it returns a bool or throws. */
  datatype Outcome = Ok(success: bool) | Throw(error: ErrorValue)

  datatype PixelFormat = RGB | RGBA | ARGB | BGR | BGRA | ABGR
  datatype CompressionPolicy = CompressionAuto | CompressionOn | CompressionOff

  /** The fields of an image that the worker reads. */
  datatype ImageWrapper = ImageWrapper(
    width: nat,
    height: nat,
    pixelFormat: PixelFormat,
    compressionPolicy: CompressionPolicy,
    compressionQuality: int,
    view: View)

  datatype SizeHints = SizeHints(
    minWidth: nat, minHeight: nat,
    maxWidth: nat, maxHeight: nat,
    preferredWidth: nat, preferredHeight: nat)

  datatype MessageType =
    | PixelStream | PixelStreamFinishFrame | PixelStreamOpen | Quit | ObserverOpen
    | ImageView | SizeHintsMessage | BindEvents | BindEventsEx | Data

  /** Message payloads, by what they carry rather than by their byte layout. */
  datatype Payload =
    | Empty
    | ProtocolVersion
    | ViewBytes(view: View)
    | HintsBytes(hints: SizeHints)
    | SegmentBytes(parameters: SegmentParameters, imageData: seq<uint8>)
    | Bytes(data: seq<uint8>)

  /** One call of the socket's send: header type, payload, and whether it waits for the bytes to be written. */
  datatype Message = Message(messageType: MessageType, payload: Payload, waitForBytesWritten: bool)

  /** What a task's closure does. */
  datatype Action =
    | SendSegmentAction(segment: Segment)
    | SendImageAction(image: ImageWrapper)
    | SendFinishAction
    | SendAction(messageType: MessageType, payload: Payload)

  datatype Task = Task(action: Action, outcome: Outcome)

  /** A unit of work: an optional promise, tasks run in order, and the finish-frame marker. */
  datatype Request = Request(promise: Option<PromiseId>, tasks: seq<Task>, isFinish: bool)

  // ---------------------------------------------------------------- validation

  const PendingFinishError := RuntimeError("Pending finish, no send allowed")
  const RawFormatError := InvalidArgument(
    "Currently, RAW images can only be sent in RGBA format. Other formats support remain to be implemented.")
  const AlreadyPendingError := RuntimeError("Already have pending finish")

  function QualityError(quality: int): ErrorValue
  {
    InvalidArgument("JPEG compression quality must be between 1 and 100, got " + IntToString(quality) + "\n")
  }

  function DigitChar(d: nat): char
    requires d < 10
  {
    "0123456789"[d]
  }

  function NatToString(n: nat): string
    decreases n
  {
    if n < 10 then [DigitChar(n)] else NatToString(n / 10) + [DigitChar(n % 10)]
  }

  /** Decimal text of an integer, as a stream prints it. */
  function IntToString(i: int): string
  {
    if i < 0 then "-" + NatToString(-i) else NatToString(i)
  }

  /** A raw (not compressed) image must be in RGBA layout. */
  predicate IsRawNonRgba(image: ImageWrapper)
  {
    image.compressionPolicy != CompressionOn && image.pixelFormat != RGBA
  }

  /** A compressed image needs a quality from 1 to 100. */
  predicate HasInvalidQuality(image: ImageWrapper)
  {
    image.compressionPolicy == CompressionOn && (image.compressionQuality < 1 || image.compressionQuality > 100)
  }

  predicate IsSmallImage(image: ImageWrapper)
  {
    image.width <= SmallImageSize && image.height <= SmallImageSize
  }

  /**
   * The exception enqueueImage returns before queueing anything, if any: a
   * pending finish first, then the raw-format test, then the quality test.
   */
  function ImageRejection(pendingFinish: bool, image: ImageWrapper): (r: Option<ErrorValue>)
    ensures r.None? <==> !pendingFinish && !IsRawNonRgba(image) && !HasInvalidQuality(image)
    ensures pendingFinish ==> r == Some(PendingFinishError)
    ensures !pendingFinish && IsRawNonRgba(image) ==> r == Some(RawFormatError)
    ensures !pendingFinish && HasInvalidQuality(image) ==> r == Some(QualityError(image.compressionQuality))
    ensures r.Some? ==> (r.value.InvalidArgument? <==> !pendingFinish)
  {
    if pendingFinish then Some(PendingFinishError)
    else if IsRawNonRgba(image) then Some(RawFormatError)
    else if HasInvalidQuality(image) then Some(QualityError(image.compressionQuality))
    else None
  }

  /** The tasks of a request for an image above the small size: send it segmented, then the finish if asked. */
  function ImageTasks(image: ImageWrapper, finish: bool, sendOutcome: Outcome, finishOutcome: Outcome): seq<Task>
  {
    [Task(SendImageAction(image), sendOutcome)] + if finish then [Task(SendFinishAction, finishOutcome)] else []
  }

  /** The message announcing a change of view. */
  function ViewMessage(view: View): Message
  {
    Message(ImageView, ViewBytes(view), true)
  }

  /** The message carrying one segment; it does not wait for the bytes to be written. */
  function SegmentMessage(segment: Segment): Message
  {
    Message(PixelStream, SegmentBytes(segment.parameters, segment.imageData), false)
  }

  // ---------------------------------------------------------------- task execution

  /** The promise state a failing or succeeding task outcome leads to. */
  function OutcomeState(o: Outcome): PromiseState
  {
    match o
    case Ok(b) => Value(b)
    case Throw(e) => Error(e)
  }

  /**
   * The state an ordinary request's promise is set to: tasks run in order
   * until one returns false or throws.
   */
  function Completion(tasks: seq<Task>): (c: PromiseState)
    ensures c != Pending
  {
    if tasks == [] then Value(true)
    else if tasks[0].outcome == Ok(true) then Completion(tasks[1..])
    else OutcomeState(tasks[0].outcome)
  }

  /** The first task that does not succeed decides the completion; none such means true. */
  lemma {:induction false} CompletionAtFirstFailure(tasks: seq<Task>, k: nat)
    requires k <= |tasks|
    requires forall i :: 0 <= i < k ==> tasks[i].outcome == Ok(true)
    requires k < |tasks| ==> tasks[k].outcome != Ok(true)
    ensures Completion(tasks) == if k == |tasks| then Value(true) else OutcomeState(tasks[k].outcome)
  {
    if k > 0 {
      assert tasks[0].outcome == Ok(true);
      CompletionAtFirstFailure(tasks[1..], k - 1);
    }
  }

  /** A request succeeds exactly when every one of its tasks succeeds. */
  lemma {:induction false} CompletionTrueIff(tasks: seq<Task>)
    ensures Completion(tasks) == Value(true) <==> forall i :: 0 <= i < |tasks| ==> tasks[i].outcome == Ok(true)
  {
    if tasks != [] && tasks[0].outcome == Ok(true) {
      CompletionTrueIff(tasks[1..]);
      assert forall i :: 1 <= i < |tasks| ==> tasks[i] == tasks[1..][i - 1];
    }
  }

  /**
   * The inner loop of run(): tasks run in order, stopping after the first
   * one that returns false or throws. `ran` counts the tasks invoked.
   */
  method ExecuteTasks(tasks: seq<Task>) returns (c: PromiseState, ran: nat)
    ensures c == Completion(tasks)
    ensures ran <= |tasks|
    ensures forall i :: 0 <= i < ran - 1 ==> tasks[i].outcome == Ok(true)
    ensures ran < |tasks| ==> 0 < ran && tasks[ran - 1].outcome != Ok(true)
    ensures c == Value(true) ==> ran == |tasks|
  {
    ran := 0;
    while ran < |tasks|
      invariant ran <= |tasks|
      invariant forall i :: 0 <= i < ran ==> tasks[i].outcome == Ok(true)
      invariant Completion(tasks) == Completion(tasks[ran..])
    {
      var outcome := tasks[ran].outcome;
      assert tasks[ran..][1..] == tasks[ran + 1..];
      ran := ran + 1;
      match outcome {
        case Ok(success) =>
          if !success {
            c := Value(false);
            return;
          }
        case Throw(e) =>
          c := Error(e);
          return;
      }
    }
    c := Value(true);
  }

  // ---------------------------------------------------------------- one pass of the worker loop

  /** The part of the worker's state one pass over dequeued requests changes. */
  datatype LoopState = LoopState(
    promises: map<PromiseId, PromiseState>,
    pendingFinish: bool,
    finishRequest: Request)

  /** Sets a request's promise, if it has one. */
  function Resolve(promises: map<PromiseId, PromiseState>, promise: Option<PromiseId>, state: PromiseState)
    : map<PromiseId, PromiseState>
  {
    if promise.Some? then promises[promise.value := state] else promises
  }

  /**
   * Handles one dequeued request. A finish request is held when none is,
   * and rejected when one already is; any other request runs its tasks.
   */
  function ProcessRequest(s: LoopState, r: Request): LoopState
  {
    if !r.isFinish then s.(promises := Resolve(s.promises, r.promise, Completion(r.tasks)))
    else if s.pendingFinish then s.(promises := Resolve(s.promises, r.promise, Error(AlreadyPendingError)))
    else s.(finishRequest := r, pendingFinish := true)
  }

  /** Handles dequeued requests in their order in the batch. */
  function ProcessAll(s: LoopState, rs: seq<Request>): LoopState
    decreases |rs|
  {
    if rs == [] then s else ProcessRequest(ProcessAll(s, rs[..|rs| - 1]), rs[|rs| - 1])
  }

  /** The position of the first finish request, or the length when there is none. */
  function FirstFinish(rs: seq<Request>): (k: nat)
    ensures k <= |rs|
    ensures forall i :: 0 <= i < k ==> !rs[i].isFinish
    ensures k < |rs| ==> rs[k].isFinish
  {
    if rs == [] then 0 else if rs[0].isFinish then 0 else 1 + FirstFinish(rs[1..])
  }

  lemma FirstFinishOfPrefix(rs: seq<Request>)
    requires rs != []
    ensures FirstFinish(rs) < |rs| - 1 ==> FirstFinish(rs[..|rs| - 1]) == FirstFinish(rs)
    ensures FirstFinish(rs) >= |rs| - 1 ==> FirstFinish(rs[..|rs| - 1]) == |rs| - 1
  {
    var p := rs[..|rs| - 1];
    if FirstFinish(rs) < |p| {
      assert p[FirstFinish(rs)].isFinish;
    }
  }

  /**
   * The first finish request of a pass is held unless one already is; a
   * held finish request is never replaced.
   */
  lemma {:induction false} ProcessAllFinishState(s: LoopState, rs: seq<Request>)
    ensures ProcessAll(s, rs).pendingFinish == (s.pendingFinish || FirstFinish(rs) < |rs|)
    ensures ProcessAll(s, rs).finishRequest ==
      if !s.pendingFinish && FirstFinish(rs) < |rs| then rs[FirstFinish(rs)] else s.finishRequest
    decreases |rs|
  {
    if rs != [] {
      ProcessAllFinishState(s, rs[..|rs| - 1]);
      FirstFinishOfPrefix(rs);
    }
  }

  /** A promise no dequeued request carries keeps its state. */
  lemma {:induction false} ProcessAllUntouched(s: LoopState, rs: seq<Request>, id: PromiseId)
    requires forall i :: 0 <= i < |rs| ==> rs[i].promise != Some(id)
    ensures id in ProcessAll(s, rs).promises <==> id in s.promises
    ensures id in s.promises ==> ProcessAll(s, rs).promises[id] == s.promises[id]
    decreases |rs|
  {
    if rs != [] {
      ProcessAllUntouched(s, rs[..|rs| - 1], id);
    }
  }

  /** A pass over requests whose promises already exist creates no promise. */
  lemma {:induction false} ProcessAllKeys(s: LoopState, rs: seq<Request>)
    requires forall i :: 0 <= i < |rs| && rs[i].promise.Some? ==> rs[i].promise.value in s.promises
    ensures ProcessAll(s, rs).promises.Keys == s.promises.Keys
    decreases |rs|
  {
    if rs != [] {
      ProcessAllKeys(s, rs[..|rs| - 1]);
    }
  }

  /**
   * How a pass settles the promise of the request at position k (when no
   * other request of the pass shares it): an ordinary request gets its
   * completion, a finish request that is not the one held gets the
   * "Already have pending finish" exception, and the held one stays as it was.
   */
  lemma {:induction false} ProcessAllPromise(s: LoopState, rs: seq<Request>, k: nat)
    requires k < |rs| && rs[k].promise.Some?
    requires forall i :: 0 <= i < |rs| && i != k ==> rs[i].promise != rs[k].promise
    ensures var id := rs[k].promise.value; var t := ProcessAll(s, rs).promises;
      && (!rs[k].isFinish ==> id in t && t[id] == Completion(rs[k].tasks))
      && (rs[k].isFinish && (s.pendingFinish || k != FirstFinish(rs)) ==>
            id in t && t[id] == Error(AlreadyPendingError))
      && (rs[k].isFinish && !s.pendingFinish && k == FirstFinish(rs) ==>
            (id in t <==> id in s.promises) && (id in s.promises ==> t[id] == s.promises[id]))
    decreases |rs|
  {
    var n := |rs| - 1;
    var p := rs[..n];
    FirstFinishOfPrefix(rs);
    if k == n {
      ProcessAllUntouched(s, p, rs[k].promise.value);
      ProcessAllFinishState(s, p);
    } else {
      ProcessAllPromise(s, p, k);
    }
  }

  // ---------------------------------------------------------------- the queue's invariant

  /**
   * Membership in the queue. The queue invariant's quantifiers are
   * instantiated only where a proof names this term.
   */
  ghost predicate Holds(q: multiset<Request>, r: Request)
  {
    r in q
  }

  /** Among queued requests, a promise belongs to one request, queued once. */
  ghost predicate UniquePromises(q: multiset<Request>)
  {
    forall r, r' {:trigger Holds(q, r), Holds(q, r')} ::
      Holds(q, r) && Holds(q, r') && r.promise.Some? && r.promise == r'.promise ==> r == r' && q[r] == 1
  }

  /** No two positions of a batch carry the same promise. */
  predicate DistinctPromises(rs: seq<Request>)
  {
    forall i, j :: 0 <= i < j < |rs| && rs[i].promise.Some? ==> rs[i].promise != rs[j].promise
  }

  lemma TwoCopies(rs: seq<Request>, i: nat, j: nat)
    requires i < j < |rs| && rs[i] == rs[j]
    ensures multiset(rs)[rs[i]] >= 2
  {
    var front, back := rs[..j], rs[j + 1..];
    assert rs == front + [rs[j]] + back;
    assert front[i] == rs[i];
    assert multiset(rs) == multiset(front) + multiset{rs[j]} + multiset(back);
  }

  /** A batch taken from a queue with unique promises has distinct promises. */
  lemma DistinctFromUnique(rs: seq<Request>)
    requires UniquePromises(multiset(rs))
    ensures DistinctPromises(rs)
  {
    forall i, j | 0 <= i < j < |rs| && rs[i].promise.Some?
      ensures rs[i].promise != rs[j].promise
    {
      if rs[i].promise == rs[j].promise {
        assert Holds(multiset(rs), rs[i]) && Holds(multiset(rs), rs[j]);
        TwoCopies(rs, i, j);
      }
    }
  }

  lemma UniqueSub(q: multiset<Request>, sub: multiset<Request>)
    requires UniquePromises(q) && sub <= q
    ensures UniquePromises(sub)
  {
    forall r, r' | Holds(sub, r) && Holds(sub, r') && r.promise.Some? && r.promise == r'.promise
      ensures r == r' && sub[r] == 1
    {
      assert Holds(q, r) && Holds(q, r');
    }
  }

  /** Promises already set stay as they were. */
  ghost predicate SetOnce(before: map<PromiseId, PromiseState>, after: map<PromiseId, PromiseState>)
  {
    forall id :: id in before && before[id] != Pending ==> id in after && after[id] == before[id]
  }

  /**
   * The queue's invariant. Every promise has an id below the next fresh one;
   * queued requests and the held finish request have pending promises of
   * their own.
   */
  ghost predicate QueueInvariant(
    requests: multiset<Request>, promises: map<PromiseId, PromiseState>, nextPromise: nat,
    pendingFinish: bool, finishRequest: Request)
  {
    && (forall id :: id in promises ==> id < nextPromise)
    && (forall r {:trigger Holds(requests, r)} :: Holds(requests, r) && r.promise.Some? ==>
          r.promise.value in promises && promises[r.promise.value] == Pending)
    && UniquePromises(requests)
    && (pendingFinish ==> finishRequest.isFinish)
    && (pendingFinish && finishRequest.promise.Some? ==>
          && finishRequest.promise.value in promises
          && promises[finishRequest.promise.value] == Pending
          && forall r {:trigger Holds(requests, r)} :: Holds(requests, r) ==> r.promise != finishRequest.promise)
  }

  /**
   * Queueing a request keeps the invariant: one without a promise leaves the
   * promises alone, one with a promise gets the next fresh id, pending.
   */
  lemma EnqueueKeepsInvariant(
    requests: multiset<Request>, promises: map<PromiseId, PromiseState>, nextPromise: nat,
    pendingFinish: bool, finishRequest: Request, r: Request)
    requires QueueInvariant(requests, promises, nextPromise, pendingFinish, finishRequest)
    requires r.promise == None || r.promise == Some(nextPromise)
    ensures r.promise.None? ==>
      QueueInvariant(requests + multiset{r}, promises, nextPromise, pendingFinish, finishRequest)
    ensures r.promise.Some? ==>
      QueueInvariant(requests + multiset{r}, promises[nextPromise := Pending], nextPromise + 1,
                     pendingFinish, finishRequest)
  {
    var q := requests + multiset{r};
    var p := if r.promise.Some? then promises[nextPromise := Pending] else promises;
    forall x | Holds(q, x) && x.promise.Some?
      ensures x.promise.value in p && p[x.promise.value] == Pending
    {
      if x != r { assert Holds(requests, x); }
    }
    if r.promise.Some? {
      assert r.promise.value !in promises;
      assert !Holds(requests, r);
    }
    forall x, y | Holds(q, x) && Holds(q, y) && x.promise.Some? && x.promise == y.promise
      ensures x == y && q[x] == 1
    {
      if x != r { assert Holds(requests, x); }
      if y != r { assert Holds(requests, y); }
    }
    if pendingFinish && finishRequest.promise.Some? {
      forall x | Holds(q, x) ensures x.promise != finishRequest.promise {
        if x != r { assert Holds(requests, x); }
      }
    }
  }

  /** The requests a pass handles: the dequeued batch, or the held finish when the batch is empty. */
  function PassRequests(pendingFinish: bool, finishRequest: Request, batch: seq<Request>): seq<Request>
  {
    if pendingFinish && batch == [] then [finishRequest.(isFinish := false)] else batch
  }

  /** The loop state a pass starts from: the held finish is released when the batch is empty. */
  function PassStart(
    promises: map<PromiseId, PromiseState>, pendingFinish: bool, finishRequest: Request, batch: seq<Request>)
    : LoopState
  {
    if pendingFinish && batch == [] then LoopState(promises, false, finishRequest.(isFinish := false))
    else LoopState(promises, pendingFinish, finishRequest)
  }

  /** Every request a pass handles carries a pending promise, if it carries one. */
  lemma PassPromisesPending(
    requests: multiset<Request>, promises: map<PromiseId, PromiseState>, nextPromise: nat,
    pendingFinish: bool, finishRequest: Request, batch: seq<Request>)
    requires QueueInvariant(requests, promises, nextPromise, pendingFinish, finishRequest)
    requires multiset(batch) <= requests
    ensures var rs := PassRequests(pendingFinish, finishRequest, batch);
      forall i :: 0 <= i < |rs| && rs[i].promise.Some? ==>
        rs[i].promise.value in promises && promises[rs[i].promise.value] == Pending
  {
    var rs := PassRequests(pendingFinish, finishRequest, batch);
    forall i | 0 <= i < |rs| && rs[i].promise.Some?
      ensures rs[i].promise.value in promises && promises[rs[i].promise.value] == Pending
    {
      if !(pendingFinish && batch == []) {
        assert rs[i] in multiset(batch);
        assert Holds(requests, rs[i]);
      }
    }
  }

  /** A request left in the queue shares its promise with no request of the pass. */
  lemma RestDisjointFromPass(
    requests: multiset<Request>, pendingFinish: bool, finishRequest: Request, batch: seq<Request>)
    requires UniquePromises(requests) && multiset(batch) <= requests
    requires pendingFinish && finishRequest.promise.Some? ==>
      forall r {:trigger Holds(requests, r)} :: Holds(requests, r) ==> r.promise != finishRequest.promise
    ensures var rs := PassRequests(pendingFinish, finishRequest, batch);
      forall r, i :: r in requests - multiset(batch) && 0 <= i < |rs| && r.promise.Some? ==>
        rs[i].promise != r.promise
  {
    var rs := PassRequests(pendingFinish, finishRequest, batch);
    forall r, i | r in requests - multiset(batch) && 0 <= i < |rs| && r.promise.Some?
      ensures rs[i].promise != r.promise
    {
      assert Holds(requests, r);
      if !(pendingFinish && batch == []) {
        assert rs[i] in multiset(batch);
        assert Holds(requests, rs[i]);
      }
    }
  }

  /** After a pass, the held finish request, if any, still has a pending promise that nothing queued shares. */
  lemma HeldAfterPass(
    requests: multiset<Request>, promises: map<PromiseId, PromiseState>, nextPromise: nat,
    pendingFinish: bool, finishRequest: Request, batch: seq<Request>)
    requires QueueInvariant(requests, promises, nextPromise, pendingFinish, finishRequest)
    requires multiset(batch) <= requests
    ensures
      var start := PassStart(promises, pendingFinish, finishRequest, batch);
      var t := ProcessAll(start, PassRequests(pendingFinish, finishRequest, batch));
      && (t.pendingFinish ==> t.finishRequest.isFinish)
      && (t.pendingFinish && t.finishRequest.promise.Some? ==>
        && t.finishRequest.isFinish
        && t.finishRequest.promise.value in t.promises
        && t.promises[t.finishRequest.promise.value] == Pending
        && forall r :: r in requests - multiset(batch) ==> r.promise != t.finishRequest.promise)
  {
    var rs := PassRequests(pendingFinish, finishRequest, batch);
    var start := PassStart(promises, pendingFinish, finishRequest, batch);
    var t := ProcessAll(start, rs);
    ProcessAllFinishState(start, rs);
    if t.pendingFinish && t.finishRequest.promise.Some? {
      var id := t.finishRequest.promise.value;
      if pendingFinish {
        assert batch != [] && t.finishRequest == finishRequest;
        forall i | 0 <= i < |rs| ensures rs[i].promise != Some(id) {
          assert rs[i] in multiset(batch);
          assert Holds(requests, rs[i]);
        }
        ProcessAllUntouched(start, rs, id);
        forall r | r in requests - multiset(batch) ensures r.promise != t.finishRequest.promise {
          assert Holds(requests, r);
        }
      } else {
        var k := FirstFinish(rs);
        assert rs == batch && t.finishRequest == rs[k];
        UniqueSub(requests, multiset(batch));
        DistinctFromUnique(batch);
        PassPromisesPending(requests, promises, nextPromise, pendingFinish, finishRequest, batch);
        ProcessAllPromise(start, rs, k);
        RestDisjointFromPass(requests, pendingFinish, finishRequest, batch);
      }
    }
  }

  /** A pass over a batch taken from the queue keeps the queue's invariant and sets no promise twice. */
  lemma PassKeepsInvariant(
    requests: multiset<Request>, promises: map<PromiseId, PromiseState>, nextPromise: nat,
    pendingFinish: bool, finishRequest: Request, batch: seq<Request>)
    requires QueueInvariant(requests, promises, nextPromise, pendingFinish, finishRequest)
    requires multiset(batch) <= requests
    ensures
      var rest := requests - multiset(batch);
      var start := PassStart(promises, pendingFinish, finishRequest, batch);
      var t := ProcessAll(start, PassRequests(pendingFinish, finishRequest, batch));
      && QueueInvariant(rest, t.promises, nextPromise, t.pendingFinish, t.finishRequest)
      && SetOnce(promises, t.promises)
      && t.promises.Keys == promises.Keys
  {
    var rest := requests - multiset(batch);
    var rs := PassRequests(pendingFinish, finishRequest, batch);
    var start := PassStart(promises, pendingFinish, finishRequest, batch);
    var t := ProcessAll(start, rs);
    assert t.promises.Keys == promises.Keys by {
      PassPromisesPending(requests, promises, nextPromise, pendingFinish, finishRequest, batch);
      ProcessAllKeys(start, rs);
    }
    assert forall r :: r in rest && r.promise.Some? ==>
      r.promise.value in t.promises && t.promises[r.promise.value] == Pending
    by {
      RestDisjointFromPass(requests, pendingFinish, finishRequest, batch);
      forall r | r in rest && r.promise.Some?
        ensures r.promise.value in t.promises && t.promises[r.promise.value] == Pending
      {
        assert Holds(requests, r);
        ProcessAllUntouched(start, rs, r.promise.value);
      }
    }
    assert SetOnce(promises, t.promises) by {
      PassPromisesPending(requests, promises, nextPromise, pendingFinish, finishRequest, batch);
      forall id | id in promises && promises[id] != Pending
        ensures id in t.promises && t.promises[id] == promises[id]
      {
        ProcessAllUntouched(start, rs, id);
      }
    }
    assert UniquePromises(rest) by {
      UniqueSub(requests, rest);
    }
    HeldAfterPass(requests, promises, nextPromise, pendingFinish, finishRequest, batch);
  }

  /** PassKeepsInvariant, stated of the state a pass leaves rather than of the function computing it. */
  lemma PassKeepsInvariantAt(
    requests: multiset<Request>, promises: map<PromiseId, PromiseState>, nextPromise: nat,
    pendingFinish: bool, finishRequest: Request, batch: seq<Request>,
    rest: multiset<Request>, promises': map<PromiseId, PromiseState>, pendingFinish': bool, finishRequest': Request)
    requires QueueInvariant(requests, promises, nextPromise, pendingFinish, finishRequest)
    requires multiset(batch) <= requests && rest == requests - multiset(batch)
    requires LoopState(promises', pendingFinish', finishRequest') ==
             ProcessAll(PassStart(promises, pendingFinish, finishRequest, batch),
                        PassRequests(pendingFinish, finishRequest, batch))
    ensures QueueInvariant(rest, promises', nextPromise, pendingFinish', finishRequest')
  {
    PassKeepsInvariant(requests, promises, nextPromise, pendingFinish, finishRequest, batch);
  }

  /**
   * What one pass guarantees, given a batch the queue may hand it: the
   * invariant is kept and no promise is set twice; a held finish stays
   * held, unchanged, while the queue is not empty, and runs with the
   * completion of its tasks in the first pass that finds the queue empty.
   * Which requests were queued before the finish is not tracked: a request
   * queued after it may complete while it is held.
   */
  lemma PassFacts(
    requests: multiset<Request>, promises: map<PromiseId, PromiseState>, nextPromise: nat,
    pendingFinish: bool, finishRequest: Request, batch: seq<Request>)
    requires QueueInvariant(requests, promises, nextPromise, pendingFinish, finishRequest)
    requires multiset(batch) <= requests && (requests != multiset{} ==> batch != [])
    ensures
      var rest := requests - multiset(batch);
      var start := PassStart(promises, pendingFinish, finishRequest, batch);
      var t := ProcessAll(start, PassRequests(pendingFinish, finishRequest, batch));
      && QueueInvariant(rest, t.promises, nextPromise, t.pendingFinish, t.finishRequest)
      && SetOnce(promises, t.promises)
      && t.promises.Keys == promises.Keys
      && (pendingFinish ==> (t.pendingFinish <==> requests != multiset{}))
      && (pendingFinish && t.pendingFinish ==> t.finishRequest == finishRequest)
      && (pendingFinish && requests == multiset{} && finishRequest.promise.Some? ==>
            t.promises[finishRequest.promise.value] == Completion(finishRequest.tasks))
  {
    var rs := PassRequests(pendingFinish, finishRequest, batch);
    var start := PassStart(promises, pendingFinish, finishRequest, batch);
    PassKeepsInvariant(requests, promises, nextPromise, pendingFinish, finishRequest, batch);
    ProcessAllFinishState(start, rs);
    if pendingFinish && batch == [] {
      assert rs[..0] == [];
    }
  }

  // ---------------------------------------------------------------- stopping

  /** Some queued request carries this promise. */
  ghost predicate Queued(q: multiset<Request>, id: PromiseId)
  {
    exists r :: r in q && r.promise == Some(id)
  }

  /** stop() sets the promise of every request still queued to false. */
  ghost function Cancelled(promises: map<PromiseId, PromiseState>, q: multiset<Request>): (m: map<PromiseId, PromiseState>)
    ensures m.Keys <= promises.Keys
    ensures forall id :: id in m ==> m[id] == Value(false)
    ensures forall id :: id in promises && Queued(q, id) ==> id in m
  {
    map id | id in promises && Queued(q, id) :: Value(false)
  }

  /** One more request in a multiset adds at most its own promise to the queued ids. */
  lemma QueuedAdding(done: multiset<Request>, r: Request, id: PromiseId)
    ensures Queued(done + multiset{r}, id) <==> Queued(done, id) || r.promise == Some(id)
  {
    if Queued(done + multiset{r}, id) {
      var r' :| r' in done + multiset{r} && r'.promise == Some(id);
      assert r' in done || r' == r;
    }
    if r.promise == Some(id) {
      assert r in done + multiset{r};
    }
    if Queued(done, id) {
      var r' :| r' in done && r'.promise == Some(id);
      assert r' in done + multiset{r};
    }
  }

  /** Dequeuing one more request during stop() sets just its promise. */
  lemma CancelStep(promises: map<PromiseId, PromiseState>, q: multiset<Request>, rest: multiset<Request>, r: Request)
    requires rest <= q && r in rest
    requires r.promise.Some? ==> r.promise.value in promises
    ensures
      var before := promises + Cancelled(promises, q - rest);
      var after := promises + Cancelled(promises, q - (rest - multiset{r}));
      after == if r.promise.Some? then before[r.promise.value := Value(false)] else before
  {
    var done := q - rest;
    assert q - (rest - multiset{r}) == done + multiset{r};
    forall id: PromiseId
      ensures Queued(done + multiset{r}, id) <==> Queued(done, id) || r.promise == Some(id)
    {
      QueuedAdding(done, r, id);
    }
  }

  /** After stop() the queue is empty, the invariant holds, and only pending promises were set. */
  lemma StopKeepsInvariant(
    requests: multiset<Request>, promises: map<PromiseId, PromiseState>, nextPromise: nat,
    pendingFinish: bool, finishRequest: Request)
    requires QueueInvariant(requests, promises, nextPromise, pendingFinish, finishRequest)
    ensures var after := promises + Cancelled(promises, requests);
      && QueueInvariant(multiset{}, after, nextPromise, pendingFinish, finishRequest)
      && SetOnce(promises, after)
  {
    var after := promises + Cancelled(promises, requests);
    forall id | id in promises && promises[id] != Pending
      ensures id in after && after[id] == promises[id]
    {
      if Queued(requests, id) {
        var r :| r in requests && r.promise == Some(id);
        assert Holds(requests, r);
      }
    }
    if pendingFinish && finishRequest.promise.Some? && Queued(requests, finishRequest.promise.value) {
      var r :| r in requests && r.promise == finishRequest.promise;
      assert Holds(requests, r);
    }
  }
}
