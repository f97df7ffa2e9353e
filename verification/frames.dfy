/** Inbound websocket frames: an 8-byte header whose first byte names the
    message type and, for sample frames, whose bytes 4-5 carry the
    little-endian server handle of the stream; the payload follows. */
module Frames {
  import opened Base

  const HeaderSize: nat := 8

  datatype FrameKind =
    | PerfSample      // 1: tracepoint / perf sample data
    | Protobuf        // 2: a structured reply or event
    | I915PerfSample  // 3: raw OA report data
    | UnknownKind

  function KindOf(tag: byte): (k: FrameKind)
    ensures k == PerfSample <==> tag == 1
    ensures k == Protobuf <==> tag == 2
    ensures k == I915PerfSample <==> tag == 3
  {
    if tag == 1 then PerfSample
    else if tag == 2 then Protobuf
    else if tag == 3 then I915PerfSample
    else UnknownKind
  }

  /** `DataView.getUint16(offset, true)`. */
  function Uint16LE(lo: byte, hi: byte): (v: nat)
    ensures v < 65536
  {
    lo + 256 * hi
  }

  /** A frame the client can read at all: shorter ones make the payload view
      (`new Uint8Array(data, 8)`) throw before anything is routed. */
  predicate Readable(frame: Bytes) {
    |frame| >= HeaderSize
  }

  function Kind(frame: Bytes): FrameKind
    requires Readable(frame)
  {
    KindOf(frame[0])
  }

  function StreamHandle(frame: Bytes): (h: nat)
    requires Readable(frame)
    ensures h < 65536
  {
    Uint16LE(frame[4], frame[5])
  }

  function Payload(frame: Bytes): (p: Bytes)
    requires Readable(frame)
    ensures |p| == |frame| - HeaderSize
  {
    frame[HeaderSize..]
  }

  /** The header a sender writes for a sample of `handle` (reserved bytes zero). */
  function FrameHeader(tag: byte, handle: nat): (h: Bytes)
    requires handle < 65536
    ensures |h| == HeaderSize
  {
    [tag, 0, 0, 0, handle % 256, handle / 256, 0, 0]
  }

  /** Reading a frame recovers the type, handle and payload it was written with. */
  lemma FrameRoundTrip(tag: byte, handle: nat, payload: Bytes)
    requires handle < 65536
    ensures var f := FrameHeader(tag, handle) + payload;
      && Readable(f)
      && Kind(f) == KindOf(tag)
      && StreamHandle(f) == handle
      && Payload(f) == payload
  {
    var f := FrameHeader(tag, handle) + payload;
    assert f[4] == handle % 256 && f[5] == handle / 256;
    assert f[HeaderSize..] == payload;
  }

  /** Two frames route to the same stream exactly when bytes 4-5 agree. */
  lemma HandleDeterminedByBytes(f: Bytes, g: Bytes)
    requires Readable(f) && Readable(g)
    ensures StreamHandle(f) == StreamHandle(g) <==> f[4] == g[4] && f[5] == g[5]
  {
  }
}
