/**
 * Values shared by the receive and the send side: stream identifiers, image
 * views, segments and frames.
 */
module StreamTypes {
  import opened Optional
  import opened SegmentParams

  /** A stream is named by an opaque string. */
  type Uri = string

  /** The view (eye) an image or segment belongs to. */
  datatype View = Mono | LeftEye | RightEye

  /**
   * One image tile: its parameters, its view, its (possibly compressed)
   * bytes, and the failure the segmenter recorded for it, if any.
   */
  datatype Segment = Segment(
    parameters: SegmentParameters,
    view: View,
    imageData: seq<uint8>,
    exception: Option<string> := None)

  /** A displayable frame: the stream it belongs to and its segments. */
  datatype Frame = Frame(uri: Uri, segments: seq<Segment>)
}
