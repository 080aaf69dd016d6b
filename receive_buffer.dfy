/**
 * The per-stream receive buffer, as the frame dispatcher sees it. Its own
 * source file is not part of this model: the buffer is an abstract value
 * holding the registered sources, the segments of the round in progress, a
 * FIFO of completed frames and the send gate, with exactly the operations
 * the dispatcher calls.
 */
module ReceiveBuffers {
  import opened StreamTypes

  type SourceIndex = nat

  datatype ReceiveBuffer = ReceiveBuffer(
    sources: set<SourceIndex>,     // the registered producer connections
    finished: set<SourceIndex>,    // sources that finished the round in progress
    round: seq<Segment>,           // segments received for the round in progress
    frames: seq<seq<Segment>>,     // completed frames, oldest first
    allowedToSend: bool)           // the consumer asked for a frame

  /** Only registered sources can have finished, and every completed frame holds a segment. */
  predicate WellFormed(b: ReceiveBuffer)
  {
    && b.finished <= b.sources
    && forall k :: 0 <= k < |b.frames| ==> b.frames[k] != []
  }

  /** What the finish call reports: the updated buffer, or that the buffer overflowed. */
  datatype FinishResult = Finished(buffer: ReceiveBuffer) | Exceeded

  /** A default-constructed buffer: no sources, no frames, gate closed. */
  function EmptyBuffer(): (b: ReceiveBuffer)
    ensures WellFormed(b)
    ensures SourceCount(b) == 0 && !HasCompleteFrame(b) && !b.allowedToSend
  {
    ReceiveBuffer({}, {}, [], [], false)
  }

  function SourceCount(b: ReceiveBuffer): nat
  {
    |b.sources|
  }

  /** Registers a source; registering an index twice does not count it twice. */
  function AddSource(b: ReceiveBuffer, i: SourceIndex): (r: ReceiveBuffer)
    ensures r.sources == b.sources + {i} && SourceCount(r) >= 1
    ensures i in b.sources ==> SourceCount(r) == SourceCount(b)
    ensures i !in b.sources ==> SourceCount(r) == SourceCount(b) + 1
    ensures r.frames == b.frames && r.allowedToSend == b.allowedToSend
    ensures WellFormed(b) ==> WellFormed(r)
  {
    assert i in b.sources ==> b.sources + {i} == b.sources;
    b.(sources := b.sources + {i})
  }

  /** Unregisters a source; the completed frames and the gate are kept. */
  function RemoveSource(b: ReceiveBuffer, i: SourceIndex): (r: ReceiveBuffer)
    ensures r.sources == b.sources - {i} && i !in r.finished
    ensures SourceCount(r) == if i in b.sources then SourceCount(b) - 1 else SourceCount(b)
    ensures r.frames == b.frames && r.allowedToSend == b.allowedToSend
    ensures WellFormed(b) ==> WellFormed(r)
  {
    b.(sources := b.sources - {i}, finished := b.finished - {i})
  }

  /** Adds a segment to the round in progress; a segment from an unregistered source is dropped. */
  function Insert(b: ReceiveBuffer, segment: Segment, i: SourceIndex): (r: ReceiveBuffer)
    ensures r.round == if i in b.sources then b.round + [segment] else b.round
    ensures r.sources == b.sources && r.finished == b.finished
    ensures r.frames == b.frames && r.allowedToSend == b.allowedToSend
    ensures WellFormed(b) ==> WellFormed(r)
  {
    if i in b.sources then b.(round := b.round + [segment]) else b
  }

  /** True when every registered source has finished the round in progress once i finishes. */
  predicate CompletesRound(b: ReceiveBuffer, i: SourceIndex)
  {
    i in b.sources && b.finished + {i} == b.sources
  }

  /**
   * Source i finished its part of the round. `exceeded` stands for the
   * buffer's own overflow test, whose bound is not part of this model.
   * The round becomes a completed frame when every registered source has
   * finished it; a round without segments yields no frame.
   */
  function FinishFrameForSource(b: ReceiveBuffer, i: SourceIndex, exceeded: bool): (r: FinishResult)
    ensures r.Exceeded? <==> exceeded
    ensures r.Finished? ==> r.buffer.sources == b.sources && r.buffer.allowedToSend == b.allowedToSend
    ensures r.Finished? ==>
      r.buffer.frames == if CompletesRound(b, i) && b.round != [] then b.frames + [b.round] else b.frames
    ensures r.Finished? && CompletesRound(b, i) ==> r.buffer.finished == {} && r.buffer.round == []
    ensures r.Finished? && i !in b.sources ==> r.buffer == b
    ensures r.Finished? && WellFormed(b) ==> WellFormed(r.buffer)
  {
    if exceeded then Exceeded
    else if i !in b.sources then Finished(b)
    else if CompletesRound(b, i) then
      Finished(b.(finished := {}, round := [],
                  frames := if b.round != [] then b.frames + [b.round] else b.frames))
    else Finished(b.(finished := b.finished + {i}))
  }

  predicate HasCompleteFrame(b: ReceiveBuffer)
  {
    |b.frames| > 0
  }

  /** Takes the oldest completed frame off the FIFO. */
  function PopFrame(b: ReceiveBuffer): (r: (seq<Segment>, ReceiveBuffer))
    requires HasCompleteFrame(b)
    ensures [r.0] + r.1.frames == b.frames
    ensures r.1.sources == b.sources && r.1.allowedToSend == b.allowedToSend
    ensures r.1 == b.(frames := r.1.frames)
    ensures WellFormed(b) ==> WellFormed(r.1) && r.0 != []
  {
    (b.frames[0], b.(frames := b.frames[1..]))
  }

  function SetAllowedToSend(b: ReceiveBuffer, enable: bool): (r: ReceiveBuffer)
    ensures r.allowedToSend == enable && r == b.(allowedToSend := enable)
    ensures WellFormed(b) ==> WellFormed(r)
  {
    b.(allowedToSend := enable)
  }

  predicate IsAllowedToSend(b: ReceiveBuffer)
  {
    b.allowedToSend
  }

  /** The source indices a run of finish calls came from. */
  function Elements(indices: seq<SourceIndex>): set<SourceIndex>
  {
    set k | 0 <= k < |indices| :: indices[k]
  }

  /** The buffer after a run of successful finish calls from the given sources, in that order. */
  function FinishAll(b: ReceiveBuffer, indices: seq<SourceIndex>): ReceiveBuffer
    decreases |indices|
  {
    if indices == [] then b
    else
      var r := FinishFrameForSource(b, indices[0], false);
      FinishAll(r.buffer, indices[1..])
  }

  /**
   * A round with segments turns into exactly one completed frame if and only
   * if every registered source has finished it, whatever the order of the
   * finish calls; unregistered and repeated finishes change nothing else.
   */
  lemma {:induction false} RoundCompletesIffAllFinished(b: ReceiveBuffer, indices: seq<SourceIndex>)
    requires b.finished < b.sources && b.round != []
    ensures b.sources <= b.finished + Elements(indices) ==>
      FinishAll(b, indices).frames == b.frames + [b.round]
    ensures !(b.sources <= b.finished + Elements(indices)) ==>
      FinishAll(b, indices).frames == b.frames && FinishAll(b, indices).round == b.round
    decreases |indices|
  {
    var seen := Elements(indices);
    if indices == [] {
      assert seen == {};
    } else {
      var i := indices[0];
      var rest := indices[1..];
      var restSeen := Elements(rest);
      assert seen == {i} + restSeen by {
        forall x | x in seen ensures x in {i} + restSeen {
          var k :| 0 <= k < |indices| && indices[k] == x;
          if k > 0 { assert rest[k - 1] == x; }
        }
        forall x | x in restSeen ensures x in seen {
          var k :| 0 <= k < |rest| && rest[k] == x;
          assert indices[k + 1] == x;
        }
      }
      var next := FinishFrameForSource(b, i, false).buffer;
      if CompletesRound(b, i) {
        assert b.sources <= b.finished + seen;
        NoFrameFromEmptyRound(next, rest);
      } else {
        assert next.finished == if i in b.sources then b.finished + {i} else b.finished;
        assert next.finished < next.sources;
        assert b.finished + seen == next.finished + restSeen + ({i} - b.sources);
        RoundCompletesIffAllFinished(next, rest);
      }
    }
  }

  /** Once the round has been collected, further finish calls add no frame until segments arrive. */
  lemma {:induction false} NoFrameFromEmptyRound(b: ReceiveBuffer, indices: seq<SourceIndex>)
    requires b.round == []
    ensures FinishAll(b, indices).frames == b.frames && FinishAll(b, indices).round == []
    decreases |indices|
  {
    if indices != [] {
      NoFrameFromEmptyRound(FinishFrameForSource(b, indices[0], false).buffer, indices[1..]);
    }
  }
}
