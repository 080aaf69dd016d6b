/**
 * The segment data formats and the parameters record that heads every
 * pixel-stream segment (deflect/SegmentParameters.h).
 */
module SegmentParams {
  import opened Optional

  /** One unsigned byte: the storage type of DataType. */
  type uint8 = x: int | 0 <= x < 0x100

  /** An unsigned 32-bit value: coordinates and dimensions of a segment. */
  type uint32 = x: int | 0 <= x < 0x1_0000_0000

  /** The possible formats for segment data. */
  datatype DataType = Rgba | Jpeg | Yuv444 | Yuv422 | Yuv420

  /** The byte that stands for a data type on the wire. */
  function Code(t: DataType): (c: uint8)
    ensures c <= 4
  {
    match t
    case Rgba => 0
    case Jpeg => 1
    case Yuv444 => 2
    case Yuv422 => 3
    case Yuv420 => 4
  }

  /** Reads a data type back from its byte; a byte above 4 names no data type. */
  function FromCode(c: uint8): (r: Option<DataType>)
    ensures r.Some? <==> c <= 4
    ensures r.Some? ==> Code(r.value) == c
  {
    if c == 0 then Some(Rgba)
    else if c == 1 then Some(Jpeg)
    else if c == 2 then Some(Yuv444)
    else if c == 3 then Some(Yuv422)
    else if c == 4 then Some(Yuv420)
    else None
  }

  /** The codes written out: rgba is 0, jpeg is 1, and the YUV formats follow in order. */
  lemma WireCodes()
    ensures Code(Rgba) == 0 && Code(Jpeg) == 1 && Code(Yuv444) == 2
    ensures Code(Yuv422) == 3 && Code(Yuv420) == 4
  {
  }

  /** Decoding the code of a data type gives that data type back, so no two share a code. */
  lemma CodeRoundTrip(t: DataType)
    ensures FromCode(Code(t)) == Some(t)
    ensures forall u: DataType :: Code(u) == Code(t) ==> u == t
  {
    forall u: DataType | Code(u) == Code(t) ensures u == t {
      assert FromCode(Code(u)) == FromCode(Code(t));
    }
  }

  /** Parameters for a frame segment; the defaults are those of a value-initialised record. */
  datatype SegmentParameters = SegmentParameters(
    x: uint32 := 0,
    y: uint32 := 0,
    width: uint32 := 0,
    height: uint32 := 0,
    dataType: DataType := Jpeg)

  /** A record built with every default: at the origin, empty, and JPEG-compressed. */
  function DefaultParameters(): (p: SegmentParameters)
    ensures p.x == 0 && p.y == 0
    ensures p.width == 0 && p.height == 0
    ensures p.dataType == Jpeg && Code(p.dataType) == 1
  {
    SegmentParameters()
  }
}
