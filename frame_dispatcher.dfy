/**
 * Frame dispatch and stream lifecycle (deflect/FrameDispatcher.cpp).
 *
 * The dispatcher keeps a receive buffer per stream and an observer count per
 * stream, routes producer events to the buffers, decides when a stream is
 * reported opened or closed, and hands out at most one frame per consumer
 * request. The signals it emits are appended to an event log.
 *
 * The two maps behave like the source's std::map, including the entries that
 * operator[] creates when it reads a key that is missing.
 */
module FrameDispatch {
  import opened StreamTypes
  import opened ReceiveBuffers

  /** The signals the dispatcher emits, in emission order. */
  datatype Event =
    | Opened(uri: Uri)               // pixelStreamOpened
    | Closed(uri: Uri)               // pixelStreamClosed
    | FrameSent(frame: Frame)        // sendFrame
    | BufferExceeded(uri: Uri)       // bufferSizeExceeded

  /** The observer count operator[] reads: a missing entry counts 0. */
  function ObserverCount(observers: map<Uri, nat>, uri: Uri): nat
  {
    if uri in observers then observers[uri] else 0
  }

  /** The observer map after operator[] has read uri: the entry exists, with its old count. */
  function Touch(observers: map<Uri, nat>, uri: Uri): (r: map<Uri, nat>)
    ensures uri in r && r.Keys == observers.Keys + {uri}
    ensures forall u :: ObserverCount(r, u) == ObserverCount(observers, u)
  {
    observers[uri := ObserverCount(observers, uri)]
  }

  /** The buffer operator[] reads: a missing entry is a default-constructed buffer. */
  function BufferAt(buffers: map<Uri, ReceiveBuffer>, uri: Uri): ReceiveBuffer
  {
    if uri in buffers then buffers[uri] else EmptyBuffer()
  }

  /** The last frame of a FIFO: the one a drain keeps. */
  function Latest(frames: seq<seq<Segment>>): seq<Segment>
    requires frames != []
  {
    frames[|frames| - 1]
  }

  /** A buffer after consumeLatestFrame: FIFO drained, gate closed. */
  function Drained(b: ReceiveBuffer): (r: ReceiveBuffer)
    ensures !HasCompleteFrame(r) && !IsAllowedToSend(r)
    ensures r.sources == b.sources && r.finished == b.finished && r.round == b.round
  {
    b.(frames := [], allowedToSend := false)
  }

  class FrameDispatcher {
    var streamBuffers: map<Uri, ReceiveBuffer>
    var observers: map<Uri, nat>
    var events: seq<Event>

    /** Every tracked buffer is well formed and has at least one source. */
    ghost predicate Valid()
      reads this
    {
      forall u :: u in streamBuffers ==> WellFormed(streamBuffers[u]) && SourceCount(streamBuffers[u]) >= 1
    }

    /** Valid, except that uri's buffer may have lost its last source. */
    ghost predicate ValidExcept(uri: Uri)
      reads this
    {
      forall u :: u in streamBuffers ==>
        WellFormed(streamBuffers[u]) && (u != uri ==> SourceCount(streamBuffers[u]) >= 1)
    }

    constructor ()
      ensures Valid()
      ensures streamBuffers == map[] && observers == map[] && events == []
    {
      streamBuffers := map[];
      observers := map[];
      events := [];
    }

    /**
     * Impl::consumeLatestFrame: pops every completed frame, keeps the last
     * one, tags it with the stream and closes the gate.
     */
    method ConsumeLatestFrame(uri: Uri) returns (frame: Frame)
      requires Valid() && uri in streamBuffers && HasCompleteFrame(streamBuffers[uri])
      modifies this
      ensures Valid()
      ensures frame.uri == uri && frame.segments != []
      ensures frame.segments == Latest(old(streamBuffers[uri].frames))
      ensures streamBuffers == old(streamBuffers)[uri := Drained(old(streamBuffers[uri]))]
      ensures observers == old(observers) && events == old(events)
    {
      frame := Frame(uri, []);
      var buffer := streamBuffers[uri];
      ghost var original := buffer;
      ghost var popped := 0;
      while HasCompleteFrame(buffer)
        invariant 0 <= popped <= |original.frames|
        invariant buffer == original.(frames := original.frames[popped..])
        invariant popped > 0 ==> frame.segments == original.frames[popped - 1]
        invariant frame.uri == uri
        decreases |buffer.frames|
      {
        var next := PopFrame(buffer);
        frame := frame.(segments := next.0);
        buffer := next.1;
        popped := popped + 1;
      }
      assert popped == |original.frames|;
      assert frame.segments != [];
      buffer := SetAllowedToSend(buffer, false);
      streamBuffers := streamBuffers[uri := buffer];
    }

    /**
     * Registers a source (operator[] creates the buffer when needed).
     * Opened is emitted when the stream now has exactly one source and no
     * observer; the count is tested on every call, so re-registering the
     * only source emits Opened again.
     */
    method AddSource(uri: Uri, sourceIndex: SourceIndex)
      requires Valid()
      modifies this
      ensures Valid()
      ensures streamBuffers == old(streamBuffers)[uri := ReceiveBuffers.AddSource(BufferAt(old(streamBuffers), uri), sourceIndex)]
      ensures streamBuffers[uri].sources == BufferAt(old(streamBuffers), uri).sources + {sourceIndex}
      ensures var opens := SourceCount(streamBuffers[uri]) == 1 && ObserverCount(old(observers), uri) == 0;
        events == old(events) + (if opens then [Opened(uri)] else [])
      ensures observers == if SourceCount(streamBuffers[uri]) == 1 then Touch(old(observers), uri) else old(observers)
    {
      var buffer := ReceiveBuffers.AddSource(BufferAt(streamBuffers, uri), sourceIndex);
      streamBuffers := streamBuffers[uri := buffer];
      if SourceCount(buffer) == 1 {
        observers := Touch(observers, uri);
        if observers[uri] == 0 {
          events := events + [Opened(uri)];
        }
      }
    }

    /** Unregisters a source of a tracked stream, then lets deleteStream decide on closing. */
    method RemoveSource(uri: Uri, sourceIndex: SourceIndex)
      requires Valid()
      modifies this
      ensures Valid()
      ensures uri !in old(streamBuffers) ==>
        streamBuffers == old(streamBuffers) && observers == old(observers) && events == old(events)
      ensures uri in old(streamBuffers) ==>
        var b := ReceiveBuffers.RemoveSource(old(streamBuffers[uri]), sourceIndex);
        if SourceCount(b) == 0 then
          && streamBuffers == old(streamBuffers) - {uri}
          && observers == Touch(old(observers), uri)
          && events == old(events) + (if ObserverCount(old(observers), uri) == 0 then [Closed(uri)] else [])
        else
          streamBuffers == old(streamBuffers)[uri := b] && observers == old(observers) && events == old(events)
    {
      if uri !in streamBuffers {
        return;
      }
      streamBuffers := streamBuffers[uri := ReceiveBuffers.RemoveSource(streamBuffers[uri], sourceIndex)];
      DeleteStream(uri);
    }

    /**
     * Counts one more observer. Opened is emitted when the count becomes 1
     * and the stream has no buffer or a buffer without sources.
     */
    method AddObserver(uri: Uri)
      requires Valid()
      modifies this
      ensures Valid()
      ensures observers == old(observers)[uri := ObserverCount(old(observers), uri) + 1]
      ensures streamBuffers == old(streamBuffers)
      ensures var opens := ObserverCount(observers, uri) == 1 &&
                (uri !in streamBuffers || SourceCount(streamBuffers[uri]) == 0);
        events == old(events) + (if opens then [Opened(uri)] else [])
    {
      observers := observers[uri := ObserverCount(observers, uri) + 1];
      if observers[uri] == 1 && (uri !in streamBuffers || SourceCount(streamBuffers[uri]) == 0) {
        events := events + [Opened(uri)];
      }
    }

    /**
     * Counts one observer less, never going below zero, then lets
     * deleteStream decide on closing.
     */
    method RemoveObserver(uri: Uri)
      requires Valid()
      modifies this
      ensures Valid()
      ensures var count := ObserverCount(old(observers), uri);
        var left := if count > 0 then count - 1 else 0;
        var decremented := old(observers)[uri := left];
        if uri !in old(streamBuffers) then
          && streamBuffers == old(streamBuffers) && observers == decremented
          && events == old(events) + (if left == 0 then [Closed(uri)] else [])
        else
          streamBuffers == old(streamBuffers) && observers == decremented && events == old(events)
    {
      observers := Touch(observers, uri);
      if observers[uri] > 0 {
        observers := observers[uri := observers[uri] - 1];
      }
      DeleteStream(uri);
    }

    /** Adds a segment to a tracked stream's buffer; an untracked stream drops it. */
    method ProcessSegment(uri: Uri, sourceIndex: SourceIndex, segment: Segment)
      requires Valid()
      modifies this
      ensures Valid()
      ensures streamBuffers ==
        if uri in old(streamBuffers) then old(streamBuffers)[uri := Insert(old(streamBuffers[uri]), segment, sourceIndex)]
        else old(streamBuffers)
      ensures observers == old(observers) && events == old(events)
    {
      if uri in streamBuffers {
        streamBuffers := streamBuffers[uri := Insert(streamBuffers[uri], segment, sourceIndex)];
      }
    }

    /**
     * A source finished its frame. An overflow emits BufferExceeded and
     * nothing else; otherwise, if the gate is open and a frame is complete,
     * the latest frame is sent.
     */
    method ProcessFrameFinished(uri: Uri, sourceIndex: SourceIndex, exceeded: bool)
      requires Valid()
      modifies this
      ensures Valid()
      ensures observers == old(observers)
      ensures uri !in old(streamBuffers) ==> streamBuffers == old(streamBuffers) && events == old(events)
      ensures uri in old(streamBuffers) && exceeded ==>
        streamBuffers == old(streamBuffers) && events == old(events) + [BufferExceeded(uri)]
      ensures uri in old(streamBuffers) && !exceeded ==>
        var b := FinishFrameForSource(old(streamBuffers[uri]), sourceIndex, false).buffer;
        if IsAllowedToSend(b) && HasCompleteFrame(b) then
          && streamBuffers == old(streamBuffers)[uri := Drained(b)]
          && events == old(events) + [FrameSent(Frame(uri, Latest(b.frames)))]
        else
          streamBuffers == old(streamBuffers)[uri := b] && events == old(events)
    {
      if uri !in streamBuffers {
        return;
      }
      var result := FinishFrameForSource(streamBuffers[uri], sourceIndex, exceeded);
      if result.Exceeded? {
        events := events + [BufferExceeded(uri)];
        return;
      }
      var buffer := result.buffer;
      streamBuffers := streamBuffers[uri := buffer];
      if IsAllowedToSend(buffer) && HasCompleteFrame(buffer) {
        var frame := ConsumeLatestFrame(uri);
        events := events + [FrameSent(frame)];
      }
    }

    /**
     * The consumer asks for a frame: the gate of a tracked stream opens, and
     * the latest frame is sent at once if one is complete.
     */
    method RequestFrame(uri: Uri)
      requires Valid()
      modifies this
      ensures Valid()
      ensures observers == old(observers)
      ensures uri !in old(streamBuffers) ==> streamBuffers == old(streamBuffers) && events == old(events)
      ensures uri in old(streamBuffers) ==>
        var b := old(streamBuffers[uri]);
        if HasCompleteFrame(b) then
          && streamBuffers == old(streamBuffers)[uri := Drained(b)]
          && events == old(events) + [FrameSent(Frame(uri, Latest(b.frames)))]
        else
          streamBuffers == old(streamBuffers)[uri := SetAllowedToSend(b, true)] && events == old(events)
    {
      if uri !in streamBuffers {
        return;
      }
      var buffer := SetAllowedToSend(streamBuffers[uri], true);
      streamBuffers := streamBuffers[uri := buffer];
      if HasCompleteFrame(buffer) {
        var frame := ConsumeLatestFrame(uri);
        events := events + [FrameSent(frame)];
      }
    }

    /**
     * deleteStream: operator[] first creates a default buffer for an
     * untracked stream, so the membership test that follows always holds.
     * A stream without sources loses its buffer, and Closed is emitted when
     * it has no observer either; a stream with sources is left as it is.
     */
    method DeleteStream(uri: Uri)
      requires ValidExcept(uri)
      modifies this
      ensures Valid()
      ensures SourceCount(BufferAt(old(streamBuffers), uri)) == 0 ==>
        && streamBuffers == old(streamBuffers) - {uri}
        && observers == Touch(old(observers), uri)
        && events == old(events) + (if ObserverCount(old(observers), uri) == 0 then [Closed(uri)] else [])
      ensures SourceCount(BufferAt(old(streamBuffers), uri)) != 0 ==>
        streamBuffers == old(streamBuffers) && observers == old(observers) && events == old(events)
    {
      var buffer := BufferAt(streamBuffers, uri);
      streamBuffers := streamBuffers[uri := buffer];
      if SourceCount(buffer) == 0 && uri in streamBuffers {
        assert streamBuffers - {uri} == old(streamBuffers) - {uri};
        streamBuffers := streamBuffers - {uri};
        observers := Touch(observers, uri);
        if observers[uri] == 0 {
          events := events + [Closed(uri)];
        }
      } else {
        assert uri in old(streamBuffers) && buffer == old(streamBuffers)[uri];
        assert streamBuffers == old(streamBuffers);
      }
    }
  }
}
