/** What the client's operations promise, one scenario at a time: how an open
    is refused or goes ahead, what a close does in each state, that a reply
    is acted on once, where inbound frames go, what the decoder callbacks
    change, and what `dispose` leaves behind. */
module SessionProps {
  import opened Base
  import opened Counters
  import opened History
  import opened Metrics
  import opened Frames
  import opened Tracepoints
  import opened Processes
  import opened Sessions

  /** The client's refusal order: unsupported first, then a close in flight,
      then an already open stream. */
  lemma RefusalOrder(m: Metric)
    ensures OpenRefusal(m) == Some(NotSupported) <==> !m.supported
    ensures OpenRefusal(m) == Some(OpenWhileClosing) <==> m.supported && m.closing
    ensures OpenRefusal(m) == Some(ReopenWithoutClose) <==> m.supported && !m.closing && m.stream.Some?
    ensures OpenRefusal(m).None? <==> m.supported && !m.closing && m.stream.None?
  {
  }

  // ---------------------------------------------------------------------
  // Opening

  /** A refused open only uses up a handle and reports the error on the
      stream object that handle names. */
  lemma OpenRefused(s: Session, g: Guid, config: Config, replay: bool, uuid: Uuid, ptr: nat)
    requires g in s.metrics && uuid !in s.pending && FreshPtr(s, ptr)
    requires OpenRefusal(s.metrics[g]).Some?
    ensures OpenWith(s, g, config, replay, uuid, ptr)
         == s.(nextHandle := s.nextHandle + 1,
               out := s.out + [Emit(s.nextHandle, Failed(OpenRefusal(s.metrics[g]).value))])
  {
  }

  /** A paused open asks nothing of the server: the stream has no server
      handle, the decoder stream is created at once and the stream object
      hears "open"; with the replay listener the history is fed back. */
  lemma OpenPausedNow(s: Session, g: Guid, config: Config, replay: bool, uuid: Uuid, ptr: nat)
    requires g in s.metrics && uuid !in s.pending && FreshPtr(s, ptr)
    requires OpenRefusal(s.metrics[g]).None? && config.paused
    ensures var r := OpenWith(s, g, config, replay, uuid, ptr);
      var m := s.metrics[g];
      && r.metrics[g] == m.(stream := Some(OpenStream(s.nextHandle, 0, config)), ccStreamPtr := ptr,
                            counters := if replay then ClearUpdates(m.counters) else m.counters)
      && r.ccMap == s.ccMap[ptr := g] && r.serverMap == s.serverMap && r.pending == s.pending
      && (forall x :: x in s.metrics && x != g ==> r.metrics[x] == s.metrics[x])
      && r.out[|s.out|..] == [OaStreamNew(ptr, g, config.perCtxMode, m.periodNs), Emit(s.nextHandle, Opened)]
                             + (if replay then [ResetAccumulator(ptr)] + FeedAll(ptr, m.history.frames) else [])
  {
    var id := s.nextHandle;
    var s1 := s.(nextHandle := id + 1);
    assert OpenWith(s, g, config, replay, uuid, ptr) == OpenPaused(s1, g, id, config, replay, ptr);
    PausedFinalized(s1, g, id, config, replay, ptr);
  }

  /** The paused branch on its own, for a stream object `id`. */
  lemma PausedFinalized(s: Session, g: Guid, id: nat, config: Config, replay: bool, ptr: nat)
    requires g in s.metrics && FreshPtr(s, ptr)
    ensures var r := OpenPaused(s, g, id, config, replay, ptr);
      var m := s.metrics[g];
      && r.metrics[g] == m.(stream := Some(OpenStream(id, 0, config)), ccStreamPtr := ptr,
                            counters := if replay then ClearUpdates(m.counters) else m.counters)
      && r.ccMap == s.ccMap[ptr := g] && r.serverMap == s.serverMap && r.pending == s.pending
      && (forall x :: x in s.metrics && x != g ==> r.metrics[x] == s.metrics[x])
      && r.out[|s.out|..] == [OaStreamNew(ptr, g, config.perCtxMode, m.periodNs), Emit(id, Opened)]
                             + (if replay then [ResetAccumulator(ptr)] + FeedAll(ptr, m.history.frames) else [])
  {
    var m := s.metrics[g];
    var s2 := SetMetric(s, g, m.(stream := Some(OpenStream(id, 0, config))));
    assert OpenPaused(s, g, id, config, replay, ptr) == FinalizeNow(s2, g, id, config.perCtxMode, replay, ptr);
    FinalizedShape(s2, g, id, config.perCtxMode, replay, ptr);
  }

  /** What finalizing changes: the metric's decoder stream (and, with a
      replay, its counters' updates), and the two announcements plus the
      replayed history on the log. */
  lemma FinalizedShape(s: Session, g: Guid, stream: nat, perCtxMode: bool, replay: bool, ptr: nat)
    requires g in s.metrics && FreshPtr(s, ptr)
    ensures var r := FinalizeNow(s, g, stream, perCtxMode, replay, ptr);
      var m := s.metrics[g];
      && r.metrics[g] == m.(ccStreamPtr := ptr, counters := if replay then ClearUpdates(m.counters) else m.counters)
      && (forall x :: x in s.metrics && x != g ==> r.metrics[x] == s.metrics[x])
      && r.out[|s.out|..] == [OaStreamNew(ptr, g, perCtxMode, m.periodNs), Emit(stream, Opened)]
                             + (if replay then [ResetAccumulator(ptr)] + FeedAll(ptr, m.history.frames) else [])
  {
    var m := s.metrics[g];
    var s1 := SetMetric(s, g, m.(ccStreamPtr := ptr))
      .(ccMap := s.ccMap[ptr := g],
        out := s.out + [OaStreamNew(ptr, g, perCtxMode, m.periodNs), Emit(stream, Opened)]);
    if replay {
      var m1 := s1.metrics[g];
      DropPrefix(s1.out, [ResetAccumulator(m1.ccStreamPtr)], FeedAll(m1.ccStreamPtr, m1.history.frames));
    }
  }

  /** A live open files its server handle, restarts the history, and sends
      exactly one `open_query` whose reply will finalize this metric object. */
  lemma OpenLiveSends(s: Session, g: Guid, config: Config, replay: bool, uuid: Uuid, ptr: nat)
    requires g in s.metrics && uuid !in s.pending && FreshPtr(s, ptr)
    requires OpenRefusal(s.metrics[g]).None? && !config.paused
    ensures var r := OpenWith(s, g, config, replay, uuid, ptr);
      var m := s.metrics[g];
      var id := s.nextHandle;
      && r.metrics[g] == m.(stream := Some(OpenStream(id, id, config)), history := Empty)
      && (forall x :: x in s.metrics && x != g ==> r.metrics[x] == s.metrics[x])
      && r.serverMap == s.serverMap[id := MetricTarget(g)] && r.ccMap == s.ccMap
      && r.pending == s.pending[uuid := FinalizeOpen(g, m.oid, id, config.perCtxMode, replay)]
      && |r.out| > |s.out|
      && r.out[|s.out|] == Send(uuid, OpenQuery(id, OaQuery(g, config.oaExponent), false, true, config.perCtxMode))
      && (forall i :: |s.out| < i < |r.out| ==> r.out[i] == LeakWarning)
  {
  }

  /** An open with no options is live, unpaused and system-wide: it asks the
      server for the metric at the default sampling exponent. */
  lemma OpenDefaults(s: Session, g: Guid, uuid: Uuid, ptr: nat)
    requires g in s.metrics && uuid !in s.pending && FreshPtr(s, ptr)
    requires OpenRefusal(s.metrics[g]).None?
    ensures var r := Open(s, g, RawConfig(None, None, None), false, uuid, ptr);
      var id := s.nextHandle;
      && r.metrics[g].stream == Some(OpenStream(id, id, Config(DefaultOaExponent, false, false)))
      && |r.out| > |s.out|
      && r.out[|s.out|] == Send(uuid, OpenQuery(id, OaQuery(g, DefaultOaExponent), false, true, false))
  {
    OpenLiveSends(s, g, Complete(RawConfig(None, None, None)), false, uuid, ptr);
  }

  /** The reply to a live open creates the decoder stream, files it, tells
      the stream object it is open, and retires the request. */
  lemma OpenLiveThenReply(s: Session, g: Guid, config: Config, uuid: Uuid, ptr: nat, msg: Message, uuid2: Uuid, ptr2: nat)
    requires g in s.metrics && uuid !in s.pending && FreshPtr(s, ptr)
    requires OpenRefusal(s.metrics[g]).None? && !config.paused
    requires msg.replyUuid == uuid
    requires var r := OpenWith(s, g, config, false, uuid, ptr);
      uuid2 !in r.pending && FreshPtr(r, ptr2)
    ensures var r := OpenWith(s, g, config, false, uuid, ptr);
      var r2 := Resolve(r, msg, uuid2, ptr2);
      && uuid !in r2.pending && r2.pending == r.pending - {uuid}
      && r2.metrics[g] == r.metrics[g].(ccStreamPtr := ptr2)
      && r2.ccMap == s.ccMap[ptr2 := g] && r2.serverMap == r.serverMap
      && r2.out == r.out + [OaStreamNew(ptr2, g, config.perCtxMode, s.metrics[g].periodNs), Emit(s.nextHandle, Opened)]
  {
    OpenLiveSends(s, g, config, false, uuid, ptr);
  }

  // ---------------------------------------------------------------------
  // Closing

  /** Closing a metric without a stream changes nothing. */
  lemma CloseWithoutStream(s: Session, g: Guid, reopen: Option<Reopen>, uuid: Uuid, ptr: nat)
    requires g in s.metrics && uuid !in s.pending && FreshPtr(s, ptr)
    requires s.metrics[g].stream.None?
    ensures Close(s, g, reopen, uuid, ptr) == s
  {
  }

  /** A second close while one is in flight sends nothing and reports a
      "Pile Up" on the stream object. */
  lemma CloseWhileClosing(s: Session, g: Guid, reopen: Option<Reopen>, uuid: Uuid, ptr: nat)
    requires g in s.metrics && uuid !in s.pending && FreshPtr(s, ptr)
    requires s.metrics[g].stream.Some? && s.metrics[g].closing
    ensures Close(s, g, reopen, uuid, ptr)
         == s.(out := s.out + [Emit(s.metrics[g].stream.value.id, Failed(ClosePileUp))])
  {
  }

  /** A paused stream is torn down at once: its decoder stream is destroyed
      and unfiled, and the metric is left without a stream and not closing. */
  lemma ClosePausedNow(s: Session, g: Guid, uuid: Uuid, ptr: nat)
    requires g in s.metrics && uuid !in s.pending && FreshPtr(s, ptr)
    requires s.metrics[g].stream.Some? && !s.metrics[g].closing && s.metrics[g].stream.value.serverHandle == 0
    ensures var r := Close(s, g, None, uuid, ptr);
      var m := s.metrics[g];
      && r.metrics == s.metrics[g := m.(stream := None, ccStreamPtr := 0)]
      && r.ccMap == s.ccMap - {m.ccStreamPtr} && r.pending == s.pending
      && r.out == s.out + [StreamDestroy(m.ccStreamPtr), Emit(m.stream.value.id, Closed)]
  {
  }

  /** A live stream starts closing and one `close_query` is sent; nothing is
      torn down until its reply. */
  lemma CloseLiveDefers(s: Session, g: Guid, reopen: Option<Reopen>, uuid: Uuid, ptr: nat)
    requires g in s.metrics && uuid !in s.pending && FreshPtr(s, ptr)
    requires s.metrics[g].stream.Some? && !s.metrics[g].closing && s.metrics[g].stream.value.serverHandle != 0
    ensures var r := Close(s, g, reopen, uuid, ptr);
      var m := s.metrics[g];
      && r.metrics == s.metrics[g := m.(closing := true)]
      && r.serverMap == s.serverMap && r.ccMap == s.ccMap
      && r.pending == s.pending[uuid := FinishClose(g, m.oid, reopen)]
      && |r.out| > |s.out| && r.out[|s.out|] == Send(uuid, CloseQuery(m.stream.value.serverHandle))
      && (forall i :: |s.out| < i < |r.out| ==> r.out[i] == LeakWarning)
  {
  }

  /** A `close_query` reply for the metric object still in the table tears
      its stream down and retires the request. */
  lemma FinishCloseOnReply(r: Session, g: Guid, oid: nat, msg: Message, uuid2: Uuid, ptr2: nat)
    requires uuid2 !in r.pending && FreshPtr(r, ptr2)
    requires msg.replyUuid in r.pending && r.pending[msg.replyUuid] == FinishClose(g, oid, None)
    requires IsCurrent(r, g, oid) && r.metrics[g].stream.Some?
    ensures var m := r.metrics[g];
      var r2 := Resolve(r, msg, uuid2, ptr2);
      && r2.metrics == r.metrics[g := m.(stream := None, ccStreamPtr := 0, closing := false)]
      && r2.serverMap == r.serverMap - {m.stream.value.serverHandle}
      && r2.ccMap == r.ccMap - {m.ccStreamPtr}
      && r2.pending == r.pending - {msg.replyUuid}
      && r2.out == r.out + [StreamDestroy(m.ccStreamPtr), Emit(m.stream.value.id, Closed)]
  {
    var m := r.metrics[g];
    var d := DestroyStream(r, g);
    var fc := SetMetric(d.0, g, d.0.metrics[g].(closing := false));
    assert TeardownAndReopen(r, g, None, uuid2, ptr2) == (fc, true);
    var closed := fc.(out := fc.out + [Emit(m.stream.value.id, Closed)]);
    assert RunCont(r, r.pending[msg.replyUuid], msg, uuid2, ptr2) == (closed, false);
    assert Resolve(r, msg, uuid2, ptr2) == closed.(pending := closed.pending - {msg.replyUuid});
    assert fc.metrics == r.metrics[g := m.(stream := None, ccStreamPtr := 0, closing := false)];
  }

  /** The reply to a live close tears the stream down: the server handle and
      decoder stream are unfiled, the metric stops closing, and the request
      is retired. */
  lemma CloseLiveThenReply(s: Session, g: Guid, uuid: Uuid, ptr: nat, msg: Message, uuid2: Uuid, ptr2: nat)
    requires g in s.metrics && uuid !in s.pending && FreshPtr(s, ptr)
    requires s.metrics[g].stream.Some? && !s.metrics[g].closing && s.metrics[g].stream.value.serverHandle != 0
    requires msg.replyUuid == uuid
    requires var r := Close(s, g, None, uuid, ptr);
      uuid2 !in r.pending && FreshPtr(r, ptr2)
    ensures var r := Close(s, g, None, uuid, ptr);
      var r2 := Resolve(r, msg, uuid2, ptr2);
      var m := s.metrics[g];
      && r2.metrics == s.metrics[g := m.(stream := None, ccStreamPtr := 0)]
      && r2.serverMap == s.serverMap - {m.stream.value.serverHandle}
      && r2.ccMap == s.ccMap - {m.ccStreamPtr}
      && r2.pending == s.pending
      && r2.out == r.out + [StreamDestroy(m.ccStreamPtr), Emit(m.stream.value.id, Closed)]
  {
    CloseLiveDefers(s, g, None, uuid, ptr);
    var m := s.metrics[g];
    var r := Close(s, g, None, uuid, ptr);
    FinishCloseOnReply(r, g, m.oid, msg, uuid2, ptr2);
    var done := m.(stream := None, ccStreamPtr := 0);
    OverwriteTwice(s.metrics, g, m.(closing := true), done);
    UnfileTwice(s.pending, uuid, FinishClose(g, m.oid, None));
  }

  /** The `close_query` reply of a pause: the live stream is torn down, a
      paused one takes its place with a fresh decoder stream, the history
      gathered while live is replayed into it, and the old stream object
      hears "close" last. */
  lemma PauseOnReply(r: Session, g: Guid, oid: nat, cfg: Config, msg: Message, uuid2: Uuid, ptr2: nat)
    requires uuid2 !in r.pending && FreshPtr(r, ptr2)
    requires msg.replyUuid in r.pending && r.pending[msg.replyUuid] == FinishClose(g, oid, Some(Reopen(cfg)))
    requires IsCurrent(r, g, oid) && r.metrics[g].stream.Some? && r.metrics[g].supported && cfg.paused
    ensures var m := r.metrics[g];
      var r2 := Resolve(r, msg, uuid2, ptr2);
      && r2.metrics[g] == m.(stream := Some(OpenStream(r.nextHandle, 0, cfg)), ccStreamPtr := ptr2,
                             closing := false, counters := ClearUpdates(m.counters))
      && r2.serverMap == r.serverMap - {m.stream.value.serverHandle}
      && r2.ccMap == (r.ccMap - {m.ccStreamPtr})[ptr2 := g]
      && r2.pending == r.pending - {msg.replyUuid}
      && r2.nextHandle == r.nextHandle + 1
      && r2.out == r.out + [StreamDestroy(m.ccStreamPtr)]
                         + ([OaStreamNew(ptr2, g, cfg.perCtxMode, m.periodNs), Emit(r.nextHandle, Opened)]
                            + ([ResetAccumulator(ptr2)] + FeedAll(ptr2, m.history.frames)))
                         + [Emit(m.stream.value.id, Closed)]
  {
    var m := r.metrics[g];
    var s2 := TornDown(r, g);
    PauseReplySteps(r, g, oid, cfg, msg, uuid2, ptr2);
    OpenPausedNow(s2, g, cfg, true, uuid2, ptr2);
    var o := OpenWith(s2, g, cfg, true, uuid2, ptr2);
    AppendAfter(s2.out, o.out, Emit(m.stream.value.id, Closed));
  }

  /** A metric's stream torn down, as `_finish_close` leaves it. */
  function TornDown(r: Session, g: Guid): (s2: Session)
    requires g in r.metrics && r.metrics[g].stream.Some?
    ensures g in s2.metrics && s2.pending == r.pending && s2.nextHandle == r.nextHandle
  {
    var m := r.metrics[g];
    r.(ccMap := r.ccMap - {m.ccStreamPtr}, serverMap := r.serverMap - {m.stream.value.serverHandle},
       metrics := r.metrics[g := m.(stream := None, ccStreamPtr := 0, closing := false)],
       out := r.out + [StreamDestroy(m.ccStreamPtr)])
  }

  lemma PauseReplySteps(r: Session, g: Guid, oid: nat, cfg: Config, msg: Message, uuid2: Uuid, ptr2: nat)
    requires uuid2 !in r.pending && FreshPtr(r, ptr2)
    requires msg.replyUuid in r.pending && r.pending[msg.replyUuid] == FinishClose(g, oid, Some(Reopen(cfg)))
    requires IsCurrent(r, g, oid) && r.metrics[g].stream.Some? && cfg.paused
    ensures var s2 := TornDown(r, g);
      uuid2 !in s2.pending && FreshPtr(s2, ptr2)
      && Resolve(r, msg, uuid2, ptr2)
         == (var o := OpenWith(s2, g, cfg, true, uuid2, ptr2);
             o.(out := o.out + [Emit(r.metrics[g].stream.value.id, Closed)], pending := o.pending - {msg.replyUuid}))
  {
    var m := r.metrics[g];
    var d := DestroyStream(r, g);
    var s2 := SetMetric(d.0, g, d.0.metrics[g].(closing := false));
    assert s2 == TornDown(r, g);
    var o := OpenWith(s2, g, cfg, true, uuid2, ptr2);
    assert TeardownAndReopen(r, g, Some(Reopen(cfg)), uuid2, ptr2) == (o, true);
    var closed := o.(out := o.out + [Emit(m.stream.value.id, Closed)]);
    assert RunCont(r, r.pending[msg.replyUuid], msg, uuid2, ptr2) == (closed, false);
  }

  /** Pausing a live metric: one `close_query` now; its reply swaps the live
      stream for a paused one that replays the history. */
  lemma PauseLiveThenReply(s: Session, g: Guid, uuid: Uuid, ptr: nat, msg: Message, uuid2: Uuid, ptr2: nat)
    requires g in s.metrics && uuid !in s.pending && FreshPtr(s, ptr)
    requires var m := s.metrics[g];
      m.supported && !m.closing && m.stream.Some? && m.stream.value.serverHandle != 0 && !m.stream.value.config.paused
    requires msg.replyUuid == uuid
    requires var r := SetPaused(s, g, true, uuid, ptr);
      uuid2 !in r.pending && FreshPtr(r, ptr2)
    ensures var m := s.metrics[g];
      var r := SetPaused(s, g, true, uuid, ptr);
      var r2 := Resolve(r, msg, uuid2, ptr2);
      && r.pending == s.pending[uuid := FinishClose(g, m.oid, Some(Reopen(m.stream.value.config.(paused := true))))]
      && r.out[|s.out|] == Send(uuid, CloseQuery(m.stream.value.serverHandle))
      && r2.metrics[g].stream == Some(OpenStream(s.nextHandle, 0, m.stream.value.config.(paused := true)))
      && r2.metrics[g].ccStreamPtr == ptr2 && !r2.metrics[g].closing
      && r2.metrics[g].history == m.history
      && r2.serverMap == s.serverMap - {m.stream.value.serverHandle}
      && r2.pending == s.pending
      && r2.out == r.out + [StreamDestroy(m.ccStreamPtr)]
                         + ([OaStreamNew(ptr2, g, m.stream.value.config.perCtxMode, m.periodNs), Emit(s.nextHandle, Opened)]
                            + ([ResetAccumulator(ptr2)] + FeedAll(ptr2, m.history.frames)))
                         + [Emit(m.stream.value.id, Closed)]
  {
    var m := s.metrics[g];
    var cfg := m.stream.value.config.(paused := true);
    CloseLiveDefers(s, g, Some(Reopen(cfg)), uuid, ptr);
    var r := Close(s, g, Some(Reopen(cfg)), uuid, ptr);
    assert SetPaused(s, g, true, uuid, ptr) == r;
    PauseOnReply(r, g, m.oid, cfg, msg, uuid2, ptr2);
    UnfileTwice(s.pending, uuid, FinishClose(g, m.oid, Some(Reopen(cfg))));
  }

  /** Resuming a paused metric happens at once (a paused stream has no
      server handle to close): the paused stream is torn down, the counters
      are cleared, a live stream takes the next handle with an empty
      history, and one `open_query` is sent. */
  lemma ResumePaused(s: Session, g: Guid, uuid: Uuid, ptr: nat)
    requires g in s.metrics && uuid !in s.pending && FreshPtr(s, ptr)
    requires var m := s.metrics[g];
      m.supported && !m.closing && m.stream.Some? && m.stream.value.serverHandle == 0 && m.stream.value.config.paused
    ensures var m := s.metrics[g];
      var cfg := m.stream.value.config.(paused := false);
      var id := s.nextHandle;
      var r := SetPaused(s, g, false, uuid, ptr);
      && r.metrics[g] == m.(stream := Some(OpenStream(id, id, cfg)), ccStreamPtr := 0,
                            counters := ClearUpdates(m.counters), history := Empty)
      && r.serverMap == (s.serverMap - {0})[id := MetricTarget(g)]
      && r.ccMap == s.ccMap - {m.ccStreamPtr}
      && r.pending == s.pending[uuid := FinalizeOpen(g, m.oid, id, cfg.perCtxMode, false)]
      && |r.out| >= |s.out| + 4
      && r.out[|s.out|] == StreamDestroy(m.ccStreamPtr) && r.out[|s.out| + 1] == ResetAccumulator(0)
      && r.out[|s.out| + 2] == Send(uuid, OpenQuery(id, OaQuery(g, cfg.oaExponent), false, true, cfg.perCtxMode))
      && r.out[|r.out| - 1] == Emit(m.stream.value.id, Closed)
  {
    ResumeSteps(s, g, uuid, ptr);
    ResumeResult(s, g, uuid, ptr);
    ResumeEffects(s, g, uuid, ptr);
  }

  lemma ResumeResult(s: Session, g: Guid, uuid: Uuid, ptr: nat)
    requires g in s.metrics && uuid !in s.pending && FreshPtr(s, ptr)
    requires var m := s.metrics[g];
      m.supported && !m.closing && m.stream.Some? && m.stream.value.serverHandle == 0 && m.stream.value.config.paused
    ensures var m := s.metrics[g];
      var cfg := m.stream.value.config.(paused := false);
      var id := s.nextHandle;
      var s3 := ClearMetricData(TornDown(s, g), g);
      uuid !in s3.pending && FreshPtr(s3, ptr)
      && var o := OpenWith(s3, g, cfg, false, uuid, ptr);
      && o.metrics[g] == m.(stream := Some(OpenStream(id, id, cfg)), ccStreamPtr := 0,
                            counters := ClearUpdates(m.counters), history := Empty)
      && o.serverMap == (s.serverMap - {0})[id := MetricTarget(g)]
      && o.ccMap == s.ccMap - {m.ccStreamPtr}
      && o.pending == s.pending[uuid := FinalizeOpen(g, m.oid, id, cfg.perCtxMode, false)]
  {
    var m := s.metrics[g];
    var cfg := m.stream.value.config.(paused := false);
    var s3 := ClearMetricData(TornDown(s, g), g);
    ClearedAfterTeardown(s, g);
    OpenLiveSends(s3, g, cfg, false, uuid, ptr);
  }

  lemma ResumeEffects(s: Session, g: Guid, uuid: Uuid, ptr: nat)
    requires g in s.metrics && uuid !in s.pending && FreshPtr(s, ptr)
    requires var m := s.metrics[g];
      m.supported && !m.closing && m.stream.Some? && m.stream.value.serverHandle == 0 && m.stream.value.config.paused
    ensures var m := s.metrics[g];
      var cfg := m.stream.value.config.(paused := false);
      var id := s.nextHandle;
      var s3 := ClearMetricData(TornDown(s, g), g);
      uuid !in s3.pending && FreshPtr(s3, ptr)
      && var o := OpenWith(s3, g, cfg, false, uuid, ptr);
      && |o.out| >= |s.out| + 3
      && o.out[|s.out|] == StreamDestroy(m.ccStreamPtr) && o.out[|s.out| + 1] == ResetAccumulator(0)
      && o.out[|s.out| + 2] == Send(uuid, OpenQuery(id, OaQuery(g, cfg.oaExponent), false, true, cfg.perCtxMode))
  {
    var m := s.metrics[g];
    var cfg := m.stream.value.config.(paused := false);
    var s3 := ClearMetricData(TornDown(s, g), g);
    ClearedAfterTeardown(s, g);
    OpenLiveSends(s3, g, cfg, false, uuid, ptr);
    var o := OpenWith(s3, g, cfg, false, uuid, ptr);
    PrefixIndex(s3.out, o.out, |s.out|);
    PrefixIndex(s3.out, o.out, |s.out| + 1);
  }

  lemma ClearedAfterTeardown(s: Session, g: Guid)
    requires g in s.metrics && s.metrics[g].stream.Some?
    ensures var m := s.metrics[g];
      var s3 := ClearMetricData(TornDown(s, g), g);
      && s3.metrics[g] == m.(stream := None, ccStreamPtr := 0, closing := false, counters := ClearUpdates(m.counters))
      && s3.out == s.out + [StreamDestroy(m.ccStreamPtr), ResetAccumulator(0)]
      && s3.serverMap == s.serverMap - {m.stream.value.serverHandle}
      && s3.ccMap == s.ccMap - {m.ccStreamPtr}
      && s3.pending == s.pending && s3.nextHandle == s.nextHandle
  {
  }

  lemma ResumeSteps(s: Session, g: Guid, uuid: Uuid, ptr: nat)
    requires g in s.metrics && uuid !in s.pending && FreshPtr(s, ptr)
    requires var m := s.metrics[g];
      !m.closing && m.stream.Some? && m.stream.value.serverHandle == 0 && m.stream.value.config.paused
    ensures var m := s.metrics[g];
      var s3 := ClearMetricData(TornDown(s, g), g);
      uuid !in s3.pending && FreshPtr(s3, ptr)
      && SetPaused(s, g, false, uuid, ptr)
         == (var o := OpenWith(s3, g, m.stream.value.config.(paused := false), false, uuid, ptr);
             o.(out := o.out + [Emit(m.stream.value.id, Closed)]))
  {
    var m := s.metrics[g];
    var cfg := m.stream.value.config.(paused := false);
    var s1 := SetMetric(s, g, m.(closing := true));
    assert SetPaused(s, g, false, uuid, ptr) == FinishCloseNow(s1, g, Some(Reopen(cfg)), uuid, ptr).0;
    ClosingTornDown(s, g);
  }

  /** Marking a streaming metric as closing and then destroying its stream
      leaves it torn down. */
  lemma ClosingTornDown(s: Session, g: Guid)
    requires g in s.metrics && s.metrics[g].stream.Some?
    ensures var s1 := SetMetric(s, g, s.metrics[g].(closing := true));
      var d := DestroyStream(s1, g);
      d.1 && SetMetric(d.0, g, d.0.metrics[g].(closing := false)) == TornDown(s, g)
  {
    var m := s.metrics[g];
    var m1 := m.(closing := true);
    var s1 := SetMetric(s, g, m1);
    var d := DestroyStream(s1, g);
    var gone := m1.(stream := None, ccStreamPtr := 0);
    assert d.0.metrics == s.metrics[g := m1][g := gone];
    OverwriteTwice(s.metrics, g, m1, gone);
    OverwriteTwice(s.metrics, g, gone, gone.(closing := false));
    assert gone.(closing := false) == m.(stream := None, ccStreamPtr := 0, closing := false);
    var t := TornDown(s, g);
    var s2 := SetMetric(d.0, g, d.0.metrics[g].(closing := false));
    assert s2.metrics == t.metrics;
    assert s2.ccMap == t.ccMap && s2.serverMap == t.serverMap && s2.out == t.out;
  }

  /** The client as written: the `close_query` continuation throws after
      the teardown, so the reply's entry is never retired, no stream object
      hears "close", and the same reply arriving again runs a teardown that
      now throws in its turn. */
  lemma AsWrittenCloseNeverRetires(r: Session, g: Guid, oid: nat, msg: Message, uuid2: Uuid, ptr2: nat)
    requires uuid2 !in r.pending && FreshPtr(r, ptr2)
    requires msg.replyUuid in r.pending && r.pending[msg.replyUuid] == FinishClose(g, oid, None)
    requires IsCurrent(r, g, oid) && r.metrics[g].stream.Some?
    ensures var t := FinishCloseAsWritten(r, g, None, uuid2, ptr2);
      var r2 := Retire(t.0, msg.replyUuid, !t.1);
      && r2.pending == r.pending
      && r2.out == r.out + [StreamDestroy(r.metrics[g].ccStreamPtr)]
      && g in r2.metrics && r2.metrics[g].stream.None?
      && !DestroyStream(r2, g).1
  {
    var d := DestroyStream(r, g);
    var fc := SetMetric(d.0, g, d.0.metrics[g].(closing := false));
    assert TeardownAndReopen(r, g, None, uuid2, ptr2) == (fc, true);
  }

  // ---------------------------------------------------------------------
  // Replies

  /** A reply is acted on once: when its continuation completes, the entry
      is gone and the same reply arriving again changes nothing. */
  lemma ReplyActsOnce(s: Session, msg: Message, uuid: Uuid, ptr: nat, uuid2: Uuid, ptr2: nat)
    requires uuid !in s.pending && FreshPtr(s, ptr) && msg.replyUuid in s.pending
    requires !RunCont(s, s.pending[msg.replyUuid], msg, uuid, ptr).1
    requires var r := Resolve(s, msg, uuid, ptr);
      uuid2 !in r.pending && FreshPtr(r, ptr2)
    ensures var r := Resolve(s, msg, uuid, ptr);
      msg.replyUuid !in r.pending && Resolve(r, msg, uuid2, ptr2) == r
  {
  }

  /** What a continuation does with its reply: a caller's callback and a
      continuation of a metric object since replaced leave the session
      alone, and only a tracepoint reply that fails to parse or a close of a
      metric whose stream is already gone throws. */
  lemma RunContOutcome(s: Session, c: Cont, msg: Message, uuid: Uuid, ptr: nat)
    requires uuid !in s.pending && FreshPtr(s, ptr)
    ensures c.Opaque? ==> RunCont(s, c, msg, uuid, ptr) == (s, false)
    ensures (c.FinalizeOpen? || c.FinishClose?) && !IsCurrent(s, c.guid, c.oid) ==>
      RunCont(s, c, msg, uuid, ptr) == (s, false)
    ensures RunCont(s, c, msg, uuid, ptr).1 ==>
      c.DeliverTracepoint? || (c.FinishClose? && s.metrics[c.guid].stream.None?)
    ensures c.DeliverTracepoint? ==>
      (RunCont(s, c, msg, uuid, ptr).1 <==> !(msg.cmd.TracepointInfoReply? && ParseFormat(msg.cmd.sampleFormat).Some?))
  {
    match c
    case FinishClose(g, oid, reopen) =>
      if IsCurrent(s, g, oid) {
        var fin := FinishCloseNow(s, g, reopen, uuid, ptr);
        assert RunCont(s, c, msg, uuid, ptr) == (fin.0, !fin.1);
      }
    case DeliverTracepoint =>
      if msg.cmd.TracepointInfoReply? {
        match ParseFormat(msg.cmd.sampleFormat)
        case Some(t) =>
          assert RunCont(s, c, msg, uuid, ptr) == (s.(out := s.out + [TracepointReady(t)]), false);
        case None =>
          assert RunCont(s, c, msg, uuid, ptr) == (s, true);
      }
    case _ =>
  }

  // ---------------------------------------------------------------------
  // Cpu stats, process info and tracepoint replies

  /** The reply to a cpu-stats open files the stream's handle for cpu-stats
      samples and tells the stream object it is open. */
  lemma CpuStatsOpenThenReply(s: Session, period: Option<nat>, uuid: Uuid, msg: Message, uuid2: Uuid, ptr2: nat)
    requires uuid !in s.pending && msg.replyUuid == uuid
    requires var r := RequestOpenCpuStats(s, period, uuid);
      uuid2 !in r.pending && FreshPtr(r, ptr2)
    ensures var r := RequestOpenCpuStats(s, period, uuid);
      var r2 := Resolve(r, msg, uuid2, ptr2);
      && r2.serverMap == s.serverMap[s.nextHandle := CpuStatsTarget]
      && r2.pending == s.pending
      && r2.out == r.out + [Emit(s.nextHandle, Opened)]
      && r2.metrics == s.metrics && r2.nextHandle == s.nextHandle + 1
  {
    var r := RequestOpenCpuStats(s, period, uuid);
    UnfileTwice(s.pending, uuid, CpuStatsOpened(s.nextHandle));
  }

  /** A cpu-stats sample reaches the stream object its handle names; a
      handle owned by a metric makes the client throw, so nothing changes. */
  lemma CpuStatsSample(s: Session, u: Uuid, id: nat, sample: Bytes, uuid: Uuid, ptr: nat)
    requires uuid !in s.pending && FreshPtr(s, ptr) && u !in s.pending
    ensures var r := HandleMessage(s, Message(u, CpuStatsReply(id, sample)), uuid, ptr);
      && (id in s.serverMap && s.serverMap[id] == CpuStatsTarget ==> r == s.(out := s.out + [Emit(id, StatsUpdate(sample))]))
      && (id in s.serverMap && s.serverMap[id].MetricTarget? ==> r == s)
      && (id !in s.serverMap ==> r == s)
  {
  }

  /** A `process_info` reply updates the process table, and retires the
      request when a callback was waiting for it. */
  lemma ProcessInfoReplied(s: Session, pid: nat, withCallback: bool, uuid: Uuid, cmdLine: string, uuid2: Uuid, ptr2: nat)
    requires uuid !in s.pending
    requires var r := GetProcessInfo(s, pid, withCallback, uuid);
      uuid2 !in r.pending && FreshPtr(r, ptr2)
    ensures var r := GetProcessInfo(s, pid, withCallback, uuid);
      var r2 := HandleMessage(r, Message(uuid, ProcessInfoReply(pid, cmdLine)), uuid2, ptr2);
      && r2.processes == OnProcessInfo(s.processes, pid, cmdLine)
      && r2.pending == s.pending
      && r2.out == r.out
  {
    var r := GetProcessInfo(s, pid, withCallback, uuid);
    assert r == s.(pending := r.pending, out := r.out);
    var msg := Message(uuid, ProcessInfoReply(pid, cmdLine));
    var r1 := r.(processes := OnProcessInfo(r.processes, pid, cmdLine));
    assert HandleMessage(r, msg, uuid2, ptr2) == Resolve(r1, msg, uuid2, ptr2);
    OpaqueResolved(r1, msg, uuid2, ptr2);
    if withCallback {
      UnfileTwice(s.pending, uuid, Opaque);
    } else {
      assert s.pending - {uuid} == s.pending;
    }
  }

  /** A reply to a request nobody waits on in the model, or to none, only
      retires the entry. */
  lemma OpaqueResolved(s: Session, msg: Message, uuid: Uuid, ptr: nat)
    requires uuid !in s.pending && FreshPtr(s, ptr)
    requires msg.replyUuid in s.pending ==> s.pending[msg.replyUuid] == Opaque
    ensures Resolve(s, msg, uuid, ptr) == s.(pending := s.pending - {msg.replyUuid})
  {
    if msg.replyUuid in s.pending {
      assert RunCont(s, Opaque, msg, uuid, ptr) == (s, false);
    } else {
      assert s.pending - {msg.replyUuid} == s.pending;
    }
  }

  /** A tracepoint's format reply: a format that parses is delivered and
      the request retired; one that does not makes the continuation throw,
      which leaves the request pending and changes nothing else. */
  lemma TracepointReplied(s: Session, name: string, uuid: Uuid, id: nat, format: string, uuid2: Uuid, ptr2: nat)
    requires uuid !in s.pending
    requires var r := GetTracepointInfo(s, name, uuid);
      uuid2 !in r.pending && FreshPtr(r, ptr2)
    ensures var r := GetTracepointInfo(s, name, uuid);
      var r2 := HandleMessage(r, Message(uuid, TracepointInfoReply(id, format)), uuid2, ptr2);
      && (ParseFormat(format).Some? ==>
            r2 == r.(pending := s.pending, out := r.out + [TracepointReady(ParseFormat(format).value)]))
      && (ParseFormat(format).None? ==> r2 == r)
  {
    var r := GetTracepointInfo(s, name, uuid);
    UnfileTwice(s.pending, uuid, DeliverTracepoint);
    match ParseFormat(format)
    case Some(tp) => TracepointReplyParsed(r, uuid, id, format, tp, uuid2, ptr2);
    case None => TracepointReplyRejected(r, uuid, id, format, uuid2, ptr2);
  }

  /** A reply to a pending tracepoint request whose format parses. */
  lemma TracepointReplyParsed(r: Session, uuid: Uuid, id: nat, format: string, tp: Tracepoint, uuid2: Uuid, ptr2: nat)
    requires uuid2 !in r.pending && FreshPtr(r, ptr2)
    requires uuid in r.pending && r.pending[uuid] == DeliverTracepoint && ParseFormat(format) == Some(tp)
    ensures HandleMessage(r, Message(uuid, TracepointInfoReply(id, format)), uuid2, ptr2)
      == r.(pending := r.pending - {uuid}, out := r.out + [TracepointReady(tp)])
  {
    var msg := Message(uuid, TracepointInfoReply(id, format));
    var ran := r.(out := r.out + [TracepointReady(tp)]);
    assert RunCont(r, DeliverTracepoint, msg, uuid2, ptr2) == (ran, false);
    assert Resolve(r, msg, uuid2, ptr2) == Retire(ran, uuid, false);
  }

  /** A reply to a pending tracepoint request whose format does not parse. */
  lemma TracepointReplyRejected(r: Session, uuid: Uuid, id: nat, format: string, uuid2: Uuid, ptr2: nat)
    requires uuid2 !in r.pending && FreshPtr(r, ptr2)
    requires uuid in r.pending && r.pending[uuid] == DeliverTracepoint && ParseFormat(format).None?
    ensures HandleMessage(r, Message(uuid, TracepointInfoReply(id, format)), uuid2, ptr2) == r
  {
    var msg := Message(uuid, TracepointInfoReply(id, format));
    assert RunCont(r, DeliverTracepoint, msg, uuid2, ptr2) == (r, true);
    assert Resolve(r, msg, uuid2, ptr2) == Retire(r, uuid, true);
  }

  // ---------------------------------------------------------------------
  // Inbound frames

  /** Frames too short for their header change nothing. */
  lemma ShortFrameIgnored(s: Session, frame: Bytes, decode: Bytes -> Message, uuid: Uuid, ptr: nat)
    requires uuid !in s.pending && FreshPtr(s, ptr) && |frame| < HeaderSize
    ensures OnFrame(s, frame, decode, uuid, ptr) == s
  {
  }

  /** An OA sample written for a live metric's server handle is kept in that
      metric's history (which stays within its ceiling and, unless the frame
      alone exceeds it, ends with the frame) and fed to its decoder stream;
      nothing else changes. */
  lemma OaSampleRouted(s: Session, h: nat, payload: Bytes, decode: Bytes -> Message, uuid: Uuid, ptr: nat)
    requires uuid !in s.pending && FreshPtr(s, ptr) && h < 65536
    requires h in s.serverMap && s.serverMap[h].MetricTarget? && s.serverMap[h].guid in s.metrics
    ensures var g := s.serverMap[h].guid;
      var m := s.metrics[g];
      var r := OnFrame(s, FrameHeader(3, h) + payload, decode, uuid, ptr);
      && r.metrics == s.metrics[g := m.(history := Push(m.history, payload))]
      && r.out == s.out + [I915Message(m.ccStreamPtr, payload)]
      && r == s.(metrics := r.metrics, out := r.out)
      && r.metrics[g].history.size <= HistoryLimit
      && (|payload| <= HistoryLimit ==>
            var fs := r.metrics[g].history.frames; |fs| > 0 && fs[|fs| - 1] == payload)
  {
    FrameRoundTrip(3, h, payload);
    assert OnFrame(s, FrameHeader(3, h) + payload, decode, uuid, ptr) == I915Frame(s, h, payload);
    I915Routed(s, h, payload);
    var m := s.metrics[s.serverMap[h].guid];
    if |payload| <= HistoryLimit {
      PushKeepsLatest(m.history, payload);
    }
  }

  /** The OA sample step itself, for a handle a metric owns. */
  lemma I915Routed(s: Session, h: nat, payload: Bytes)
    requires h in s.serverMap && s.serverMap[h].MetricTarget? && s.serverMap[h].guid in s.metrics
    ensures var g := s.serverMap[h].guid;
      var m := s.metrics[g];
      var r := I915Frame(s, h, payload);
      && r.metrics == s.metrics[g := m.(history := Push(m.history, payload))]
      && r.out == s.out + [I915Message(m.ccStreamPtr, payload)]
      && r == s.(metrics := r.metrics, out := r.out)
  {
  }

  /** The OA sample step with the client's buffer as written: the frame is
      appended in arrival order, the size field grows by the frame's length
      and is never reduced, and once it is past the ceiling the push drops
      exactly one (the oldest) frame, so the frame count stays put. */
  lemma OaSampleAsWritten(s: Session, h: nat, payload: Bytes)
    requires h in s.serverMap && s.serverMap[h].MetricTarget? && s.serverMap[h].guid in s.metrics
    ensures var g := s.serverMap[h].guid;
      var m := s.metrics[g];
      var r := I915FrameAsWritten(s, h, payload);
      var nh := r.metrics[g].history;
      var all := m.history.frames + [payload];
      && nh.size == m.history.size + |payload|
      && nh.frames == all[|all| - |nh.frames|..]
      && (nh.size > HistoryLimit <==> |nh.frames| == |m.history.frames|)
      && r.metrics == s.metrics[g := m.(history := nh)]
      && r.out == s.out + [I915Message(m.ccStreamPtr, payload)]
      && r == s.(metrics := r.metrics, out := r.out)
  {
    I915RoutedAsWritten(s, h, payload);
  }

  /** The as-written OA sample step, for a handle a metric owns. */
  lemma I915RoutedAsWritten(s: Session, h: nat, payload: Bytes)
    requires h in s.serverMap && s.serverMap[h].MetricTarget? && s.serverMap[h].guid in s.metrics
    ensures var g := s.serverMap[h].guid;
      var m := s.metrics[g];
      var r := I915FrameAsWritten(s, h, payload);
      && r.metrics == s.metrics[g := m.(history := PushAsWritten(m.history, payload))]
      && r.out == s.out + [I915Message(m.ccStreamPtr, payload)]
      && r == s.(metrics := r.metrics, out := r.out)
  {
  }

  /** On a live metric with an empty history, a 1 MiB frame followed by two
      one-byte frames leaves the client's buffer holding only the last byte,
      although both small frames fit under the ceiling. */
  lemma AsWrittenSessionLosesFrames(s: Session, h: nat)
    requires h in s.serverMap && s.serverMap[h].MetricTarget? && s.serverMap[h].guid in s.metrics
    requires s.metrics[s.serverMap[h].guid].history == Empty
    ensures var g := s.serverMap[h].guid;
      var r := I915FrameAsWritten(I915FrameAsWritten(I915FrameAsWritten(s, h, FullFrame()), h, [7]), h, [9]);
      r.metrics[g].history.frames == [[9]]
  {
    var g := s.serverMap[h].guid;
    var m := s.metrics[g];
    var s1 := I915FrameAsWritten(s, h, FullFrame());
    I915RoutedAsWritten(s, h, FullFrame());
    var s2 := I915FrameAsWritten(s1, h, [7]);
    I915RoutedAsWritten(s1, h, [7]);
    I915RoutedAsWritten(s2, h, [9]);
    AsWrittenLosesFramesUnderTheCeiling();
  }

  /** The session's corrected buffer on the same frames keeps both small
      frames. */
  lemma SessionKeepsFramesUnderTheCeiling(s: Session, h: nat)
    requires h in s.serverMap && s.serverMap[h].MetricTarget? && s.serverMap[h].guid in s.metrics
    requires s.metrics[s.serverMap[h].guid].history == Empty
    ensures var g := s.serverMap[h].guid;
      var r := I915Frame(I915Frame(I915Frame(s, h, FullFrame()), h, [7]), h, [9]);
      r.metrics[g].history.frames == [[7], [9]] && r.metrics[g].history.size == 2
  {
    var g := s.serverMap[h].guid;
    var s1 := I915Frame(s, h, FullFrame());
    I915Routed(s, h, FullFrame());
    var s2 := I915Frame(s1, h, [7]);
    I915Routed(s1, h, [7]);
    I915Routed(s2, h, [9]);
    PushKeepsFramesUnderTheCeiling();
  }

  /** An OA sample for a handle nobody owns, or one owned by a cpu-stats
      stream (the client throws), changes nothing. */
  lemma OaSampleUnrouted(s: Session, h: nat, payload: Bytes, decode: Bytes -> Message, uuid: Uuid, ptr: nat)
    requires uuid !in s.pending && FreshPtr(s, ptr) && h < 65536
    requires h !in s.serverMap || s.serverMap[h] == CpuStatsTarget
    ensures OnFrame(s, FrameHeader(3, h) + payload, decode, uuid, ptr) == s
  {
    FrameRoundTrip(3, h, payload);
  }

  /** A perf sample goes to its owner's decoder stream, or nowhere. */
  lemma PerfSampleRouted(s: Session, h: nat, payload: Bytes, decode: Bytes -> Message, uuid: Uuid, ptr: nat)
    requires uuid !in s.pending && FreshPtr(s, ptr) && h < 65536
    ensures var r := OnFrame(s, FrameHeader(1, h) + payload, decode, uuid, ptr);
      && (h in s.serverMap ==> r == s.(out := s.out + [PerfMessage(OwnerPtr(s, s.serverMap[h]), payload)]))
      && (h !in s.serverMap ==> r == s)
  {
    FrameRoundTrip(1, h, payload);
  }

  /** A structured frame is decoded from its payload and handled. */
  lemma ProtobufFrameHandled(s: Session, payload: Bytes, decode: Bytes -> Message, uuid: Uuid, ptr: nat)
    requires uuid !in s.pending && FreshPtr(s, ptr)
    ensures OnFrame(s, FrameHeader(2, 0) + payload, decode, uuid, ptr) == HandleMessage(s, decode(payload), uuid, ptr)
  {
    FrameRoundTrip(2, 0, payload);
  }

  // ---------------------------------------------------------------------
  // Decoder callbacks

  /** A counter reading after the decoder started an update on a metric's
      decoder stream lands in that metric's counter with the reading's
      index, and nowhere else; an index past the metric's counters, or a
      stream the session does not know, changes nothing. */
  lemma ReadingLands(s: Session, streamPtr: nat, start: int, end: int, reason: string, counterId: nat, max: real, value: real)
    ensures var s1 := StartUpdate(s, streamPtr, start, end, reason);
      var r := UpdateCounter(s1, counterId, max, value);
      && (streamPtr in s.ccMap && s.ccMap[streamPtr] in s.metrics && counterId < |s.metrics[s.ccMap[streamPtr]].counters| ==>
            var g := s.ccMap[streamPtr];
            var m := s.metrics[g];
            r == s1.(metrics := s.metrics[g := m.(counters := m.counters[counterId :=
                       AppendCounterData(m.counters[counterId], start, end, max, value, reason)])]))
      && (streamPtr in s.ccMap && s.ccMap[streamPtr] in s.metrics && counterId >= |s.metrics[s.ccMap[streamPtr]].counters| ==>
            r == s1)
      && (!(streamPtr in s.ccMap && s.ccMap[streamPtr] in s.metrics) ==> r == s1 && s1.current.None?)
  {
  }

  /** Once the update has ended, readings are dropped. */
  lemma ReadingAfterEnd(s: Session, counterId: nat, max: real, value: real)
    ensures UpdateCounter(EndUpdate(s), counterId, max, value) == EndUpdate(s)
  {
  }

  /** A reading for an update whose metric object has since been replaced
      is dropped. */
  lemma ReadingForStaleMetric(s: Session, counterId: nat, max: real, value: real)
    requires s.current.Some? && !IsCurrent(s, s.current.value.guid, s.current.value.oid)
    ensures UpdateCounter(s, counterId, max, value) == s
  {
  }

  // ---------------------------------------------------------------------
  // Teardown

  /** Every metric holding a decoder stream outside a close also holds a
      stream object, so its teardown cannot throw. A finalize reply that
      arrives after its metric's close reply breaks this. */
  ghost predicate NoOrphanStream(s: Session) {
    forall g :: g in s.metrics && !s.metrics[g].closing && s.metrics[g].ccStreamPtr != 0 ==> s.metrics[g].stream.Some?
  }

  /** A metric whose decoder stream `dispose` must destroy. */
  ghost predicate LiveDecoder(s: Session, g: Guid) {
    g in s.metrics && !s.metrics[g].closing && s.metrics[g].ccStreamPtr != 0
  }

  /** Without orphans the catalog walk completes, and it destroys the
      decoder stream of every listed metric that had a live one. */
  lemma {:induction false} DestroyAllCompletes(s: Session, guids: seq<Guid>)
    requires NoOrphanStream(s)
    ensures DestroyAll(s, guids).1
    ensures forall i :: 0 <= i < |guids| && LiveDecoder(s, guids[i]) ==>
      StreamDestroy(s.metrics[guids[i]].ccStreamPtr) in DestroyAll(s, guids).0.out
    decreases |guids|
  {
    if |guids| > 0 {
      var g := guids[0];
      if LiveDecoder(s, g) {
        var (s1, ok) := DestroyStream(s, g);
        assert NoOrphanStream(s1);
        DestroyAllCompletes(s1, guids[1..]);
        var r := DestroyAll(s1, guids[1..]).0;
        assert StreamDestroy(s.metrics[g].ccStreamPtr) in r.out by {
          assert s1.out[|s.out|] == StreamDestroy(s.metrics[g].ccStreamPtr);
          assert s1.out <= r.out;
        }
        forall i | 0 <= i < |guids| && LiveDecoder(s, guids[i])
          ensures StreamDestroy(s.metrics[guids[i]].ccStreamPtr) in r.out
        {
          if guids[i] != g {
            assert guids[i] == guids[1..][i - 1];
            assert LiveDecoder(s1, guids[i]);
          }
        }
      } else {
        DestroyAllCompletes(s, guids[1..]);
        forall i | 0 <= i < |guids| && LiveDecoder(s, guids[i])
          ensures StreamDestroy(s.metrics[guids[i]].ccStreamPtr) in DestroyAll(s, guids[1..]).0.out
        {
          assert guids[i] == guids[1..][i - 1];
        }
      }
    }
  }

  /** `dispose` closes the socket once, destroys every catalog metric's live
      decoder stream and empties the catalog, the metrics and both handle
      tables; pending requests are kept. */
  lemma DisposeClears(s: Session)
    requires NoOrphanStream(s)
    ensures var r := Dispose(s);
      && !r.connected && r.metrics == map[] && r.catalog == []
      && r.ccMap == map[] && r.serverMap == map[] && r.pending == s.pending
      && (s.connected ==> r.out[|s.out|] == SocketClosed)
      && (forall i :: 0 <= i < |s.catalog| && LiveDecoder(s, s.catalog[i]) ==>
            StreamDestroy(s.metrics[s.catalog[i]].ccStreamPtr) in r.out)
  {
    var s1 := if s.connected then s.(connected := false, out := s.out + [SocketClosed]) else s;
    assert NoOrphanStream(s1);
    DestroyAllCompletes(s1, s1.catalog);
    var s2 := DestroyAll(s1, s1.catalog).0;
    assert s.connected ==> s2.out[|s.out|] == SocketClosed by {
      if s.connected { assert s1.out <= s2.out; }
    }
  }

  /** A completed `dispose` leaves nothing for a second one to do. */
  lemma DisposeIdempotent(s: Session)
    requires NoOrphanStream(s)
    ensures Dispose(Dispose(s)) == Dispose(s)
  {
    DisposeClears(s);
  }
}
