/** The per-metric replay history: raw OA sample payloads kept, in arrival
    order, so that a paused metric can feed them to a fresh decoder stream,
    together with a running byte count and a 1 MiB ceiling. */
module History {
  import opened Base

  const HistoryLimit: nat := 1048576

  datatype History = History(frames: seq<Bytes>, size: nat)

  const Empty: History := History([], 0)

  /** Bytes held by a sequence of frames. */
  function SumLen(frames: seq<Bytes>): nat
    decreases |frames|
  {
    if |frames| == 0 then 0 else |frames[0]| + SumLen(frames[1..])
  }

  /** The buffer's size field counts exactly the bytes it holds. */
  ghost predicate Accurate(h: History) {
    h.size == SumLen(h.frames)
  }

  /** The buffer as the client writes it: the size grows by every frame
      pushed and is never reduced, and once it is past the ceiling each push
      drops exactly one (the oldest) frame. */
  function PushAsWritten(h: History, data: Bytes): (r: History)
    ensures r.size == h.size + |data|
    ensures var all := h.frames + [data];
      && |r.frames| == |h.frames| + (if r.size > HistoryLimit then 0 else 1)
      && r.frames == all[|all| - |r.frames|..]
  {
    var frames := h.frames + [data];
    var size := h.size + |data|;
    if size > HistoryLimit then History(frames[1..], size) else History(frames, size)
  }

  /** Oldest-first eviction down to the ceiling. */
  function Evict(frames: seq<Bytes>, size: nat): (r: History)
    requires size == SumLen(frames)
    ensures Accurate(r) && r.size <= HistoryLimit
    ensures |r.frames| <= |frames| && r.frames == frames[|frames| - |r.frames|..]
    ensures |r.frames| < |frames| ==> SumLen(frames[|frames| - |r.frames| - 1..]) > HistoryLimit
    decreases |frames|
  {
    if size <= HistoryLimit then History(frames, size)
    else Evict(frames[1..], size - |frames[0]|)
  }

  /** The buffer as evidently intended: the size field tracks the bytes
      held, and pushing evicts oldest frames until it is within the ceiling.
      The size is recounted from the frames, so a buffer whose size field
      was wrong comes out right. */
  function Push(h: History, data: Bytes): (r: History)
    ensures Accurate(r) && r.size <= HistoryLimit
    ensures var all := h.frames + [data];
      && |r.frames| <= |all| && r.frames == all[|all| - |r.frames|..]
      && (|r.frames| < |all| ==> SumLen(all[|all| - |r.frames| - 1..]) > HistoryLimit)
  {
    var all := h.frames + [data];
    Evict(all, SumLen(all))
  }

  lemma {:induction false} SumLenAppend(frames: seq<Bytes>, data: Bytes)
    ensures SumLen(frames + [data]) == SumLen(frames) + |data|
    decreases |frames|
  {
    if |frames| == 0 {
      assert frames + [data] == [data];
    } else {
      assert (frames + [data])[1..] == frames[1..] + [data];
      SumLenAppend(frames[1..], data);
    }
  }

  /** As written, once the running count has passed the ceiling the buffer
      holds a fixed number of frames, whatever their sizes. */
  lemma AsWrittenFreezesLength(h: History, data: Bytes)
    requires h.size > HistoryLimit
    ensures |PushAsWritten(h, data).frames| == |h.frames|
  {
  }

  /** A frame of exactly the ceiling's size. */
  function FullFrame(): (f: Bytes)
    ensures |f| == HistoryLimit
  {
    seq(HistoryLimit, i => 0)
  }

  /** The discrepancy on a concrete input: after a 1 MiB frame and two
      one-byte frames the buffer as written keeps one byte, although the two
      small frames fit under the ceiling. */
  lemma AsWrittenLosesFramesUnderTheCeiling()
    ensures var h := PushAsWritten(PushAsWritten(PushAsWritten(Empty, FullFrame()), [7]), [9]);
      && h.frames == [[9]] && SumLen(h.frames) == 1 && h.size > HistoryLimit
  {
    var a1 := PushAsWritten(Empty, FullFrame());
    assert a1.frames == [FullFrame()] && a1.size == HistoryLimit;
    var a2 := PushAsWritten(a1, [7]);
    assert a2.frames == [[7]];
    var a3 := PushAsWritten(a2, [9]);
    assert a3.frames == [[9]];
    assert SumLen([[9]]) == 1;
  }

  /** A push that stays within the ceiling evicts nothing. */
  lemma PushUnderCeiling(h: History, data: Bytes)
    requires Accurate(h) && h.size + |data| <= HistoryLimit
    ensures Push(h, data) == History(h.frames + [data], h.size + |data|)
  {
    SumLenAppend(h.frames, data);
  }

  /** A one-byte frame pushed after a full frame evicts exactly the full one. */
  lemma PushAfterFullFrame(f: Bytes, b: byte)
    requires |f| == HistoryLimit
    ensures Push(History([f], HistoryLimit), [b]) == History([[b]], 1)
  {
    var one: seq<Bytes> := [f];
    assert one[1..] == [];
    assert SumLen(one) == HistoryLimit;
    var all := one + [[b]];
    SumLenAppend(one, [b]);
    assert all[0] == f && all[1..] == [[b]];
    var last: seq<Bytes> := [[b]];
    assert last[1..] == [];
    assert SumLen(last) == 1;
    assert Evict(last, 1) == History(last, 1);
    assert Evict(all, HistoryLimit + 1) == Evict(all[1..], HistoryLimit + 1 - |all[0]|);
  }

  /** The intended buffer on the same input keeps both small frames. */
  lemma PushKeepsFramesUnderTheCeiling()
    ensures Push(Push(Push(Empty, FullFrame()), [7]), [9]) == History([[7], [9]], 2)
  {
    PushUnderCeiling(Empty, FullFrame());
    assert Empty.frames + [FullFrame()] == [FullFrame()];
    PushAfterFullFrame(FullFrame(), 7);
    assert SumLen([[7]]) == 1 by {
      var one: seq<Bytes> := [[7]];
      assert one[1..] == [];
    }
    PushUnderCeiling(History([[7]], 1), [9]);
    assert [[7]] + [[9]] == [[7], [9]];
  }

  /** A frame no larger than the ceiling is never evicted by its own push:
      the buffer ends with it. */
  lemma PushKeepsLatest(h: History, data: Bytes)
    requires |data| <= HistoryLimit
    ensures var r := Push(h, data);
      |r.frames| > 0 && r.frames[|r.frames| - 1] == data
  {
    var all := h.frames + [data];
    var last: seq<Bytes> := all[|all| - 1..];
    assert last == [data] && last[1..] == [];
  }
}
