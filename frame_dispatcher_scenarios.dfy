/**
 * Event sequences the dispatcher produces for short call sequences, derived
 * from the method contracts alone.
 */
module FrameDispatchScenarios {
  import opened StreamTypes
  import opened ReceiveBuffers
  import opened FrameDispatch

  /**
   * Two frames complete before the consumer asks: the request yields one
   * frame, holding only the newer frame's segments.
   */
  method CoalescingScenario(older: Segment, newer: Segment) returns (events: seq<Event>)
    ensures events == [Opened("s"), FrameSent(Frame("s", [newer]))]
  {
    var d := new FrameDispatcher();
    d.AddSource("s", 0);
    assert d.streamBuffers["s"] == ReceiveBuffer({0}, {}, [], [], false);
    d.ProcessSegment("s", 0, older);
    assert d.streamBuffers["s"] == ReceiveBuffer({0}, {}, [older], [], false);
    d.ProcessFrameFinished("s", 0, false);
    assert d.streamBuffers["s"] == ReceiveBuffer({0}, {}, [], [[older]], false);
    d.ProcessSegment("s", 0, newer);
    assert d.streamBuffers["s"] == ReceiveBuffer({0}, {}, [newer], [[older]], false);
    d.ProcessFrameFinished("s", 0, false);
    assert [[older]] + [[newer]] == [[older], [newer]];
    assert d.streamBuffers["s"] == ReceiveBuffer({0}, {}, [], [[older], [newer]], false);
    d.RequestFrame("s");
    events := d.events;
  }

  /**
   * A request made before any frame is complete opens the gate; the frame is
   * sent as soon as it completes, and the next one waits for a new request.
   */
  method PullScenario(first: Segment, second: Segment) returns (events: seq<Event>)
    ensures events == [Opened("s"), FrameSent(Frame("s", [first]))]
  {
    var d := new FrameDispatcher();
    d.AddSource("s", 0);
    d.RequestFrame("s");
    assert d.streamBuffers["s"] == ReceiveBuffer({0}, {}, [], [], true);
    d.ProcessSegment("s", 0, first);
    assert d.streamBuffers["s"] == ReceiveBuffer({0}, {}, [first], [], true);
    d.ProcessFrameFinished("s", 0, false);
    assert d.streamBuffers["s"] == ReceiveBuffer({0}, {}, [], [], false);
    assert d.events == [Opened("s"), FrameSent(Frame("s", [first]))];
    d.ProcessSegment("s", 0, second);
    d.ProcessFrameFinished("s", 0, false);
    events := d.events;
  }

  /** Two sources registered and the gate open. */
  method TwoSourcesRequested() returns (d: FrameDispatcher)
    ensures fresh(d) && d.Valid()
    ensures d.streamBuffers == map["s" := ReceiveBuffer({0, 1}, {}, [], [], true)]
    ensures d.events == [Opened("s")]
  {
    d := new FrameDispatcher();
    d.AddSource("s", 0);
    assert d.streamBuffers["s"] == ReceiveBuffer({0}, {}, [], [], false);
    d.AddSource("s", 1);
    assert {0} + {1} == {0, 1};
    assert d.streamBuffers["s"] == ReceiveBuffer({0, 1}, {}, [], [], false);
    d.RequestFrame("s");
  }

  /** Two sources registered, the gate open, and one segment from each. */
  method TwoSourcesWithSegments(a: Segment, b: Segment) returns (d: FrameDispatcher)
    ensures fresh(d) && d.Valid()
    ensures d.streamBuffers == map["s" := ReceiveBuffer({0, 1}, {}, [a, b], [], true)]
    ensures d.events == [Opened("s")]
  {
    d := TwoSourcesRequested();
    d.ProcessSegment("s", 0, a);
    assert d.streamBuffers["s"] == ReceiveBuffer({0, 1}, {}, [a], [], true);
    d.ProcessSegment("s", 1, b);
    assert d.streamBuffers["s"] == ReceiveBuffer({0, 1}, {}, [a, b], [], true);
  }

  /** A frame completes only when both registered sources have finished it. */
  method TwoSourceScenario(a: Segment, b: Segment) returns (beforeSecond: seq<Event>, events: seq<Event>)
    ensures beforeSecond == [Opened("s")]
    ensures events == [Opened("s"), FrameSent(Frame("s", [a, b]))]
  {
    var d := TwoSourcesWithSegments(a, b);
    assert {} + {1} != {0, 1};
    assert !CompletesRound(ReceiveBuffer({0, 1}, {}, [a, b], [], true), 1);
    d.ProcessFrameFinished("s", 1, false);
    assert d.streamBuffers["s"] == ReceiveBuffer({0, 1}, {1}, [a, b], [], true);
    beforeSecond := d.events;
    assert {1} + {0} == {0, 1};
    var full := FinishFrameForSource(ReceiveBuffer({0, 1}, {1}, [a, b], [], true), 0, false).buffer;
    assert full.frames == [[a, b]] && full.allowedToSend;
    d.ProcessFrameFinished("s", 0, false);
    events := d.events;
  }

  /** Registering the same only source twice emits Opened twice. */
  method ReAddSourceScenario() returns (events: seq<Event>)
    ensures events == [Opened("s"), Opened("s")]
  {
    var d := new FrameDispatcher();
    d.AddSource("s", 7);
    d.AddSource("s", 7);
    events := d.events;
  }

  /** Removing an observer of a stream nobody ever opened emits Closed. */
  method UnknownObserverScenario() returns (events: seq<Event>)
    ensures events == [Closed("s")]
  {
    var d := new FrameDispatcher();
    d.RemoveObserver("s");
    events := d.events;
  }

  /**
   * An observer opens the stream; its source comes and goes without a
   * signal; the stream closes when the observer leaves.
   */
  method ObserverLifecycleScenario() returns (events: seq<Event>)
    ensures events == [Opened("s"), Closed("s")]
  {
    var d := new FrameDispatcher();
    d.AddObserver("s");
    d.AddSource("s", 0);
    d.RemoveSource("s", 0);
    d.RemoveObserver("s");
    events := d.events;
  }

  /** An overflow reports BufferExceeded and sends no frame, even with the gate open. */
  method OverflowScenario(segment: Segment) returns (events: seq<Event>)
    ensures events == [Opened("s"), BufferExceeded("s")]
  {
    var d := new FrameDispatcher();
    d.AddSource("s", 0);
    d.RequestFrame("s");
    d.ProcessSegment("s", 0, segment);
    d.ProcessFrameFinished("s", 0, true);
    events := d.events;
  }
}
