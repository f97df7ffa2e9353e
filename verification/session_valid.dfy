/** The session invariant: the two handle tables agree with the metrics they
    point at, handles stay below the counter that hands them out, and a
    pending cpu-stats open owns a handle no metric uses. Every step keeps it. */
module SessionValid {
  import opened Base
  import opened Counters
  import opened History
  import opened Metrics
  import opened Frames
  import opened Processes
  import Tracepoints
  import opened Sessions

  /** Every filed server handle was handed out already. */
  ghost predicate HandlesIssued(s: Session) {
    0 < s.nextHandle && forall h :: h in s.serverMap ==> 0 < h < s.nextHandle
  }

  /** A server handle filed for a metric is that metric's stream's handle. */
  ghost predicate ServerMapSound(s: Session) {
    forall h :: h in s.serverMap && s.serverMap[h].MetricTarget? ==>
      s.serverMap[h].guid in s.metrics
      && s.metrics[s.serverMap[h].guid].stream.Some?
      && s.metrics[s.serverMap[h].guid].stream.value.serverHandle == h
  }

  /** A metric streaming from the server is found under its server handle. */
  ghost predicate ServerMapComplete(s: Session) {
    forall g :: g in s.metrics && s.metrics[g].stream.Some? && s.metrics[g].stream.value.serverHandle != 0 ==>
      s.metrics[g].stream.value.serverHandle in s.serverMap
      && s.serverMap[s.metrics[g].stream.value.serverHandle] == MetricTarget(g)
  }

  /** Decoder streams are non-null and belong to known metrics. */
  ghost predicate CcMapSound(s: Session) {
    forall p :: p in s.ccMap ==> p != 0 && s.ccMap[p] in s.metrics
  }

  ghost predicate MetricWellFormed(s: Session, g: Guid)
    requires g in s.metrics
  {
    var m := s.metrics[g];
    && m.guid == g
    && m.oid < s.nextOid
    && (m.stream.Some? ==>
          (m.stream.value.id < s.nextHandle
           && (m.stream.value.serverHandle == 0 || m.stream.value.serverHandle == m.stream.value.id)))
  }

  ghost predicate MetricsWellFormed(s: Session) {
    forall g :: g in s.metrics ==> MetricWellFormed(s, g)
  }

  ghost predicate CatalogKnown(s: Session) {
    forall i :: 0 <= i < |s.catalog| ==> s.catalog[i] in s.metrics
  }

  /** The handle a pending cpu-stats open will file is issued and is no
      metric's server handle. */
  ghost predicate PendingHandlesFree(s: Session) {
    && (forall u :: u in s.pending && s.pending[u].CpuStatsOpened? ==>
          0 < s.pending[u].handle < s.nextHandle)
    && (forall u, g :: u in s.pending && s.pending[u].CpuStatsOpened? && g in s.metrics && s.metrics[g].stream.Some? ==>
          s.metrics[g].stream.value.serverHandle != s.pending[u].handle)
  }

  ghost predicate Valid(s: Session) {
    && HandlesIssued(s)
    && ServerMapSound(s)
    && ServerMapComplete(s)
    && CcMapSound(s)
    && MetricsWellFormed(s)
    && CatalogKnown(s)
    && PendingHandlesFree(s)
  }

  lemma InitialValid()
    ensures Valid(Initial())
  {
  }

  // ---------------------------------------------------------------------
  // Frames: changes that cannot break the invariant

  /** Changing a metric's data (counters, history, period, support, decoder
      stream, close state) keeps the invariant as long as its identity and
      stream stay. */
  lemma SetMetricKeepsValid(s: Session, g: Guid, m: Metric)
    requires Valid(s) && g in s.metrics
    requires m.guid == g && m.oid == s.metrics[g].oid
    requires m.stream == s.metrics[g].stream
    ensures Valid(SetMetric(s, g, m))
  {
    var r := SetMetric(s, g, m);
    assert forall x :: x in r.metrics ==> x in s.metrics && r.metrics[x].stream == s.metrics[x].stream;
    assert MetricsWellFormed(r) by {
      forall x | x in r.metrics ensures MetricWellFormed(r, x) {
        assert MetricWellFormed(s, x);
      }
    }
  }

  lemma FileCcPtrKeepsValid(s: Session, p: nat, g: Guid)
    requires Valid(s) && g in s.metrics && p != 0
    ensures Valid(s.(ccMap := s.ccMap[p := g]))
  {
  }

  lemma LogKeepsValid(s: Session, out: seq<Effect>)
    requires Valid(s)
    ensures Valid(s.(out := out))
  {
  }

  lemma BumpHandleKeepsValid(s: Session)
    requires Valid(s)
    ensures Valid(s.(nextHandle := s.nextHandle + 1))
  {
    var r := s.(nextHandle := s.nextHandle + 1);
    assert MetricsWellFormed(r) by {
      forall x | x in r.metrics ensures MetricWellFormed(r, x) {
        assert MetricWellFormed(s, x);
      }
    }
  }

  /** A metric created on first lookup is well formed. */
  lemma LookupMetricKeepsValid(s: Session, g: Guid)
    requires Valid(s)
    ensures Valid(LookupMetric(s, g))
  {
    var r := LookupMetric(s, g);
    assert MetricsWellFormed(r) by {
      forall x | x in r.metrics ensures MetricWellFormed(r, x) {
        if x != g || g in s.metrics {
          assert MetricWellFormed(s, x);
        }
      }
    }
  }

  lemma RpcRequestKeepsValid(s: Session, uuid: Uuid, req: Request, cont: Option<Cont>)
    requires Valid(s) && uuid !in s.pending
    requires cont.Some? ==> !cont.value.CpuStatsOpened?
    ensures Valid(RpcRequest(s, uuid, req, cont))
  {
  }

  // ---------------------------------------------------------------------
  // Every operation keeps the invariant

  lemma RegisterMetricSetKeepsValid(s: Session, g: Guid, counters: seq<Counter>)
    requires Valid(s)
    ensures Valid(RegisterMetricSet(s, g, counters))
  {
    LookupMetricKeepsValid(s, g);
    var s1 := LookupMetric(s, g);
    SetMetricKeepsValid(s1, g, s1.metrics[g].(counters := counters));
  }

  lemma {:induction false} MarkSupportedKeepsValid(s: Session, guids: seq<Guid>)
    requires Valid(s)
    ensures Valid(MarkSupported(s, guids))
    decreases |guids|
  {
    if |guids| > 0 {
      LookupMetricKeepsValid(s, guids[0]);
      var s1 := LookupMetric(s, guids[0]);
      SetMetricKeepsValid(s1, guids[0], s1.metrics[guids[0]].(supported := true));
      MarkSupportedKeepsValid(MarkOne(s, guids[0]), guids[1..]);
    }
  }

  lemma ApplySupportedKeepsValid(s: Session, guids: seq<Guid>)
    requires Valid(s)
    ensures Valid(ApplySupported(s, guids))
  {
    var s1 := s.(metrics := ClearSupport(s.metrics, s.catalog));
    assert Valid(s1) by {
      assert forall x :: x in s1.metrics ==> x in s.metrics && s1.metrics[x].stream == s.metrics[x].stream;
      forall x | x in s1.metrics ensures MetricWellFormed(s1, x) {
        assert MetricWellFormed(s, x);
      }
    }
    MarkSupportedKeepsValid(s1, guids);
  }

  lemma ReplayBufferKeepsValid(s: Session, g: Guid)
    requires Valid(s) && g in s.metrics
    ensures Valid(ReplayBuffer(s, g))
  {
    var m := s.metrics[g];
    SetMetricKeepsValid(s, g, m.(counters := ClearUpdates(m.counters)));
  }

  lemma SetAggregationPeriodKeepsValid(s: Session, g: Guid, periodNs: nat)
    requires Valid(s) && g in s.metrics
    ensures Valid(SetAggregationPeriod(s, g, periodNs))
  {
    SetMetricKeepsValid(s, g, s.metrics[g].(periodNs := periodNs));
  }

  lemma FinalizeNowKeepsValid(s: Session, g: Guid, stream: nat, perCtxMode: bool, replay: bool, ptr: nat)
    requires Valid(s) && g in s.metrics && FreshPtr(s, ptr)
    ensures Valid(FinalizeNow(s, g, stream, perCtxMode, replay, ptr))
  {
    var m := s.metrics[g];
    SetMetricKeepsValid(s, g, m.(ccStreamPtr := ptr));
    var s1 := SetMetric(s, g, m.(ccStreamPtr := ptr))
      .(ccMap := s.ccMap[ptr := g],
        out := s.out + [OaStreamNew(ptr, g, perCtxMode, m.periodNs), Emit(stream, Opened)]);
    assert Valid(s1);
    if replay {
      ReplayBufferKeepsValid(s1, g);
    }
  }

  lemma OpenWithKeepsValid(s: Session, g: Guid, config: Config, replay: bool, uuid: Uuid, ptr: nat)
    requires Valid(s) && g in s.metrics && uuid !in s.pending && FreshPtr(s, ptr)
    ensures Valid(OpenWith(s, g, config, replay, uuid, ptr))
  {
    var id := s.nextHandle;
    BumpHandleKeepsValid(s);
    var s1 := s.(nextHandle := id + 1);
    if OpenRefusal(s.metrics[g]).None? {
      if config.paused {
        OpenPausedKeepsValid(s1, g, id, config, replay, ptr);
      } else {
        OpenLiveKeepsValid(s, g, config, replay, uuid);
      }
    }
  }

  lemma OpenPausedKeepsValid(s: Session, g: Guid, id: nat, config: Config, replay: bool, ptr: nat)
    requires Valid(s) && g in s.metrics && FreshPtr(s, ptr)
    requires id < s.nextHandle && OpenRefusal(s.metrics[g]).None?
    ensures Valid(OpenPaused(s, g, id, config, replay, ptr))
  {
    var s1 := SetMetric(s, g, s.metrics[g].(stream := Some(OpenStream(id, 0, config))));
    assert MetricsWellFormed(s1) by {
      forall x | x in s1.metrics ensures MetricWellFormed(s1, x) {
        if x != g { assert MetricWellFormed(s, x); }
      }
    }
    assert Valid(s1);
    FinalizeNowKeepsValid(s1, g, id, config.perCtxMode, replay, ptr);
  }

  /** The session `FileLiveStream` builds: a fresh handle taken and filed
      both as the metric's stream and in the server table. */
  ghost function LiveFiled(s0: Session, g: Guid, config: Config): Session
    requires g in s0.metrics
  {
    var id := s0.nextHandle;
    var s := s0.(nextHandle := id + 1);
    SetMetric(s, g, s.metrics[g].(stream := Some(OpenStream(id, id, config))))
      .(serverMap := s.serverMap[id := MetricTarget(g)])
  }

  /** The metric-side half of the invariant after filing a live stream. */
  lemma LiveFiledMetricsOk(s0: Session, g: Guid, config: Config)
    requires Valid(s0) && g in s0.metrics && s0.metrics[g].stream.None?
    ensures MetricsWellFormed(LiveFiled(s0, g, config)) && PendingHandlesFree(LiveFiled(s0, g, config))
    ensures CatalogKnown(LiveFiled(s0, g, config)) && CcMapSound(LiveFiled(s0, g, config))
  {
    var s := s0.(nextHandle := s0.nextHandle + 1);
    var s1 := LiveFiled(s0, g, config);
    BumpHandleKeepsValid(s0);
    assert MetricsWellFormed(s1) by {
      forall x | x in s1.metrics ensures MetricWellFormed(s1, x) {
        if x != g { assert MetricWellFormed(s, x); }
      }
    }
    assert PendingHandlesFree(s1) by {
      forall u, x | u in s1.pending && s1.pending[u].CpuStatsOpened? && x in s1.metrics && s1.metrics[x].stream.Some?
        ensures s1.metrics[x].stream.value.serverHandle != s1.pending[u].handle
      {
        if x != g { assert s1.metrics[x] == s0.metrics[x]; }
      }
    }
  }

  /** Filing a live stream under the handle just taken keeps the invariant. */
  lemma FileLiveStreamKeepsValid(s0: Session, g: Guid, config: Config)
    requires Valid(s0) && g in s0.metrics && s0.metrics[g].stream.None?
    ensures var id := s0.nextHandle;
      var s := s0.(nextHandle := id + 1);
      Valid(SetMetric(s, g, s.metrics[g].(stream := Some(OpenStream(id, id, config))))
              .(serverMap := s.serverMap[id := MetricTarget(g)]))
  {
    BumpHandleKeepsValid(s0);
    LiveFiledMetricsOk(s0, g, config);
    var s1 := LiveFiled(s0, g, config);
    assert HandlesIssued(s1) && ServerMapSound(s1) && ServerMapComplete(s1);
  }

  /** The live branch, from the session before the open took its handle. */
  lemma OpenLiveKeepsValid(s0: Session, g: Guid, config: Config, replay: bool, uuid: Uuid)
    requires Valid(s0) && g in s0.metrics && uuid !in s0.pending && OpenRefusal(s0.metrics[g]).None?
    ensures Valid(OpenLive(s0.(nextHandle := s0.nextHandle + 1), g, s0.nextHandle, config, replay, uuid))
  {
    var id := s0.nextHandle;
    var s := s0.(nextHandle := id + 1);
    var m := s.metrics[g];
    FileLiveStreamKeepsValid(s0, g, config);
    var s1 := SetMetric(s, g, m.(stream := Some(OpenStream(id, id, config))))
      .(serverMap := s.serverMap[id := MetricTarget(g)]);
    var req := OpenQuery(id, OaQuery(g, config.oaExponent), false, true, config.perCtxMode);
    var cont := FinalizeOpen(g, m.oid, id, config.perCtxMode, replay);
    RpcRequestKeepsValid(s1, uuid, req, Some(cont));
    var s2 := RpcRequest(s1, uuid, req, Some(cont));
    SetMetricKeepsValid(s2, g, s2.metrics[g].(history := Empty));
  }

  lemma DestroyStreamKeepsValid(s: Session, g: Guid)
    requires Valid(s) && g in s.metrics
    ensures Valid(DestroyStream(s, g).0)
  {
    var r := DestroyStream(s, g).0;
    var m := s.metrics[g];
    if m.stream.Some? {
      assert ServerMapSound(r) by {
        forall h | h in r.serverMap && r.serverMap[h].MetricTarget?
          ensures r.serverMap[h].guid in r.metrics
          ensures r.metrics[r.serverMap[h].guid].stream.Some?
          ensures r.metrics[r.serverMap[h].guid].stream.value.serverHandle == h
        {
          assert h != m.stream.value.serverHandle && r.serverMap[h] == s.serverMap[h];
        }
      }
      assert MetricsWellFormed(r) by {
        forall x | x in r.metrics ensures MetricWellFormed(r, x) {
          assert MetricWellFormed(s, x);
        }
      }
    }
  }

  /** The teardown half of `_finish_close`. */
  lemma TeardownKeepsValid(s: Session, g: Guid)
    requires Valid(s) && g in s.metrics && s.metrics[g].stream.Some?
    ensures var s1 := DestroyStream(s, g).0;
      g in s1.metrics && Valid(SetMetric(s1, g, s1.metrics[g].(closing := false)))
  {
    DestroyStreamKeepsValid(s, g);
    var s1 := DestroyStream(s, g).0;
    SetMetricKeepsValid(s1, g, s1.metrics[g].(closing := false));
  }

  /** The reopen half of `_finish_close`. */
  lemma ReopenKeepsValid(s: Session, g: Guid, config: Config, uuid: Uuid, ptr: nat)
    requires Valid(s) && g in s.metrics && uuid !in s.pending && FreshPtr(s, ptr)
    ensures config.paused ==> Valid(OpenWith(s, g, config, true, uuid, ptr))
    ensures !config.paused ==> Valid(OpenWith(ClearMetricData(s, g), g, config, false, uuid, ptr))
  {
    if config.paused {
      OpenWithKeepsValid(s, g, config, true, uuid, ptr);
    } else {
      SetMetricKeepsValid(s, g, s.metrics[g].(counters := ClearUpdates(s.metrics[g].counters)));
      OpenWithKeepsValid(ClearMetricData(s, g), g, config, false, uuid, ptr);
    }
  }

  lemma TeardownAndReopenKeepsValid(s: Session, g: Guid, reopen: Option<Reopen>, uuid: Uuid, ptr: nat)
    requires Valid(s) && g in s.metrics && uuid !in s.pending && FreshPtr(s, ptr)
    ensures Valid(TeardownAndReopen(s, g, reopen, uuid, ptr).0)
  {
    DestroyStreamKeepsValid(s, g);
    if s.metrics[g].stream.Some? {
      TeardownKeepsValid(s, g);
      var s1 := DestroyStream(s, g).0;
      var s2 := SetMetric(s1, g, s1.metrics[g].(closing := false));
      if reopen.Some? {
        ReopenKeepsValid(s2, g, reopen.value.config, uuid, ptr);
      }
    }
  }

  lemma FinishCloseNowKeepsValid(s: Session, g: Guid, reopen: Option<Reopen>, uuid: Uuid, ptr: nat)
    requires Valid(s) && g in s.metrics && uuid !in s.pending && FreshPtr(s, ptr)
    ensures Valid(FinishCloseNow(s, g, reopen, uuid, ptr).0)
  {
    TeardownAndReopenKeepsValid(s, g, reopen, uuid, ptr);
  }

  /** Marking a metric as closing keeps the invariant. */
  lemma StartClosingKeepsValid(s: Session, g: Guid)
    requires Valid(s) && g in s.metrics
    ensures Valid(SetMetric(s, g, s.metrics[g].(closing := true)))
  {
    SetMetricKeepsValid(s, g, s.metrics[g].(closing := true));
  }

  lemma CloseKeepsValid(s: Session, g: Guid, reopen: Option<Reopen>, uuid: Uuid, ptr: nat)
    requires Valid(s) && g in s.metrics && uuid !in s.pending && FreshPtr(s, ptr)
    ensures Valid(Close(s, g, reopen, uuid, ptr))
  {
    var m := s.metrics[g];
    if m.stream.Some? {
      if m.closing {
        LogKeepsValid(s, s.out + [Emit(m.stream.value.id, Failed(ClosePileUp))]);
      } else if m.stream.value.serverHandle == 0 {
        ClosePausedKeepsValid(s, g, reopen, uuid, ptr);
      } else {
        CloseLiveKeepsValid(s, g, reopen, uuid, ptr);
      }
    }
  }

  /** A paused stream is torn down at once. */
  lemma ClosePausedKeepsValid(s: Session, g: Guid, reopen: Option<Reopen>, uuid: Uuid, ptr: nat)
    requires Valid(s) && g in s.metrics && uuid !in s.pending && FreshPtr(s, ptr)
    requires s.metrics[g].stream.Some? && !s.metrics[g].closing && s.metrics[g].stream.value.serverHandle == 0
    ensures Valid(Close(s, g, reopen, uuid, ptr))
  {
    var s1 := SetMetric(s, g, s.metrics[g].(closing := true));
    assert Close(s, g, reopen, uuid, ptr) == FinishCloseNow(s1, g, reopen, uuid, ptr).0;
    StartClosingKeepsValid(s, g);
    FinishCloseNowKeepsValid(s1, g, reopen, uuid, ptr);
  }

  /** A live stream sends a `close_query` and waits for the reply. */
  lemma CloseLiveKeepsValid(s: Session, g: Guid, reopen: Option<Reopen>, uuid: Uuid, ptr: nat)
    requires Valid(s) && g in s.metrics && uuid !in s.pending && FreshPtr(s, ptr)
    requires s.metrics[g].stream.Some? && !s.metrics[g].closing && s.metrics[g].stream.value.serverHandle != 0
    ensures Valid(Close(s, g, reopen, uuid, ptr))
  {
    var m := s.metrics[g];
    var s1 := SetMetric(s, g, m.(closing := true));
    var req := CloseQuery(m.stream.value.serverHandle);
    var cont := Some(FinishClose(g, m.oid, reopen));
    assert Close(s, g, reopen, uuid, ptr) == RpcRequest(s1, uuid, req, cont);
    StartClosingKeepsValid(s, g);
    RpcRequestKeepsValid(s1, uuid, req, cont);
  }

  lemma SetPausedKeepsValid(s: Session, g: Guid, paused: bool, uuid: Uuid, ptr: nat)
    requires Valid(s) && g in s.metrics && uuid !in s.pending && FreshPtr(s, ptr)
    ensures Valid(SetPaused(s, g, paused, uuid, ptr))
  {
    var m := s.metrics[g];
    if m.stream.Some? && m.stream.value.config.paused != paused && !m.closing {
      CloseKeepsValid(s, g, Some(Reopen(m.stream.value.config.(paused := paused))), uuid, ptr);
    }
  }

  /** The handle a cpu-stats open files later is fresh now: above every
      metric's stream id, hence no metric's server handle. */
  lemma RequestOpenCpuStatsKeepsValid(s: Session, samplePeriodMs: Option<nat>, uuid: Uuid)
    requires Valid(s) && uuid !in s.pending
    ensures Valid(RequestOpenCpuStats(s, samplePeriodMs, uuid))
  {
    var h := s.nextHandle;
    var s1 := s.(nextHandle := h + 1);
    var r := RequestOpenCpuStats(s, samplePeriodMs, uuid);
    NextHandleUnused(s);
    BumpHandleKeepsValid(s);
    assert r == s1.(pending := s.pending[uuid := CpuStatsOpened(h)], out := r.out);
    CpuStatsPendingKeepsValid(s1, uuid, h, r.out);
  }

  /** No metric streams under the handle the counter hands out next. */
  lemma NextHandleUnused(s: Session)
    requires Valid(s)
    ensures forall g :: g in s.metrics && s.metrics[g].stream.Some? ==>
      s.metrics[g].stream.value.serverHandle != s.nextHandle
  {
    forall g | g in s.metrics && s.metrics[g].stream.Some?
      ensures s.metrics[g].stream.value.serverHandle != s.nextHandle
    {
      assert MetricWellFormed(s, g);
    }
  }

  /** Filing a cpu-stats open for an issued handle no metric streams under
      keeps the invariant. */
  lemma CpuStatsPendingKeepsValid(s: Session, uuid: Uuid, h: nat, out: seq<Effect>)
    requires Valid(s) && 0 < h < s.nextHandle
    requires forall g :: g in s.metrics && s.metrics[g].stream.Some? ==> s.metrics[g].stream.value.serverHandle != h
    ensures Valid(s.(pending := s.pending[uuid := CpuStatsOpened(h)], out := out))
  {
  }

  lemma GetProcessInfoKeepsValid(s: Session, pid: nat, withCallback: bool, uuid: Uuid)
    requires Valid(s) && uuid !in s.pending
    ensures Valid(GetProcessInfo(s, pid, withCallback, uuid))
  {
    RpcRequestKeepsValid(s, uuid, ProcessInfoQuery(pid), if withCallback then Some(Opaque) else None);
  }

  lemma GetTracepointInfoKeepsValid(s: Session, name: string, uuid: Uuid)
    requires Valid(s) && uuid !in s.pending
    ensures Valid(GetTracepointInfo(s, name, uuid))
  {
    RpcRequestKeepsValid(s, uuid, TracepointInfoQuery(name), Some(DeliverTracepoint));
  }

  lemma {:induction false} DestroyAllKeepsValid(s: Session, guids: seq<Guid>)
    requires Valid(s)
    ensures Valid(DestroyAll(s, guids).0)
    decreases |guids|
  {
    if |guids| > 0 {
      var g := guids[0];
      if g in s.metrics && !s.metrics[g].closing && s.metrics[g].ccStreamPtr != 0 {
        DestroyStreamKeepsValid(s, g);
        var (s1, ok) := DestroyStream(s, g);
        if ok { DestroyAllKeepsValid(s1, guids[1..]); }
      } else {
        DestroyAllKeepsValid(s, guids[1..]);
      }
    }
  }

  lemma DisposeKeepsValid(s: Session)
    requires Valid(s)
    ensures Valid(Dispose(s))
  {
    var s1 := if s.connected then s.(connected := false, out := s.out + [SocketClosed]) else s;
    DestroyAllKeepsValid(s1, s1.catalog);
  }

  lemma I915FrameKeepsValid(s: Session, h: nat, data: Bytes)
    requires Valid(s)
    ensures Valid(I915Frame(s, h, data))
  {
    if h in s.serverMap && s.serverMap[h].MetricTarget? && s.serverMap[h].guid in s.metrics {
      var g := s.serverMap[h].guid;
      SetMetricKeepsValid(s, g, s.metrics[g].(history := Push(s.metrics[g].history, data)));
    }
  }

  lemma RunContKeepsValid(s: Session, u: Uuid, msg: Message, uuid: Uuid, ptr: nat)
    requires Valid(s) && u in s.pending && uuid !in s.pending && FreshPtr(s, ptr)
    ensures Valid(RunCont(s, s.pending[u], msg, uuid, ptr).0)
  {
    match s.pending[u]
    case FinalizeOpen(g, oid, stream, perCtxMode, replay) =>
      FinalizeContKeepsValid(s, s.pending[u], msg, uuid, ptr);
    case FinishClose(g, oid, reopen) =>
      FinishContKeepsValid(s, s.pending[u], msg, uuid, ptr);
    case CpuStatsOpened(h) =>
      assert 0 < h < s.nextHandle;
      var out := s.out + [Emit(h, Opened)];
      assert RunCont(s, s.pending[u], msg, uuid, ptr).0 == s.(serverMap := s.serverMap[h := CpuStatsTarget], out := out);
      FileCpuStatsKeepsValid(s, h, out);
    case DeliverTracepoint =>
      DeliverContKeepsValid(s, msg, uuid, ptr);
    case Opaque =>
  }

  lemma FinalizeContKeepsValid(s: Session, c: Cont, msg: Message, uuid: Uuid, ptr: nat)
    requires Valid(s) && uuid !in s.pending && FreshPtr(s, ptr) && c.FinalizeOpen?
    ensures Valid(RunCont(s, c, msg, uuid, ptr).0)
  {
    if IsCurrent(s, c.guid, c.oid) {
      FinalizeNowKeepsValid(s, c.guid, c.stream, c.perCtxMode, c.replay, ptr);
    }
  }

  lemma FinishContKeepsValid(s: Session, c: Cont, msg: Message, uuid: Uuid, ptr: nat)
    requires Valid(s) && uuid !in s.pending && FreshPtr(s, ptr) && c.FinishClose?
    ensures Valid(RunCont(s, c, msg, uuid, ptr).0)
  {
    if IsCurrent(s, c.guid, c.oid) {
      FinishCloseNowKeepsValid(s, c.guid, c.reopen, uuid, ptr);
    }
  }

  lemma DeliverContKeepsValid(s: Session, msg: Message, uuid: Uuid, ptr: nat)
    requires Valid(s) && uuid !in s.pending && FreshPtr(s, ptr)
    ensures Valid(RunCont(s, DeliverTracepoint, msg, uuid, ptr).0)
  {
    if msg.cmd.TracepointInfoReply? {
      var parsed := Tracepoints.ParseFormat(msg.cmd.sampleFormat);
      if parsed.Some? {
        var out := s.out + [TracepointReady(parsed.value)];
        assert RunCont(s, DeliverTracepoint, msg, uuid, ptr).0 == s.(out := out);
        LogKeepsValid(s, out);
      }
    }
  }

  /** Filing an issued handle no metric streams under for the cpu-stats
      stream keeps the invariant. */
  lemma FileCpuStatsKeepsValid(s: Session, h: nat, out: seq<Effect>)
    requires Valid(s) && 0 < h < s.nextHandle
    requires forall g :: g in s.metrics && s.metrics[g].stream.Some? ==> s.metrics[g].stream.value.serverHandle != h
    ensures Valid(s.(serverMap := s.serverMap[h := CpuStatsTarget], out := out))
  {
    var r := s.(serverMap := s.serverMap[h := CpuStatsTarget], out := out);
    assert ServerMapSound(r) by {
      forall k | k in r.serverMap && r.serverMap[k].MetricTarget?
        ensures r.serverMap[k].guid in r.metrics
        ensures r.metrics[r.serverMap[k].guid].stream.Some?
        ensures r.metrics[r.serverMap[k].guid].stream.value.serverHandle == k
      {
        assert k != h && r.serverMap[k] == s.serverMap[k];
      }
    }
    assert ServerMapComplete(r) by {
      forall x | x in r.metrics && r.metrics[x].stream.Some? && r.metrics[x].stream.value.serverHandle != 0
        ensures r.metrics[x].stream.value.serverHandle in r.serverMap
        ensures r.serverMap[r.metrics[x].stream.value.serverHandle] == MetricTarget(x)
      {
        assert r.metrics[x].stream.value.serverHandle != h;
      }
    }
  }

  lemma ResolveKeepsValid(s: Session, msg: Message, uuid: Uuid, ptr: nat)
    requires Valid(s) && uuid !in s.pending && FreshPtr(s, ptr)
    ensures Valid(Resolve(s, msg, uuid, ptr))
  {
    if msg.replyUuid in s.pending {
      RunContKeepsValid(s, msg.replyUuid, msg, uuid, ptr);
    }
  }

  lemma ProcessesKeepsValid(s: Session, processes: ProcessTable)
    requires Valid(s)
    ensures Valid(s.(processes := processes))
  {
  }

  lemma ProcessInfoReplyKeepsValid(s: Session, msg: Message, uuid: Uuid, ptr: nat)
    requires Valid(s) && uuid !in s.pending && FreshPtr(s, ptr) && msg.cmd.ProcessInfoReply?
    ensures Valid(HandleMessage(s, msg, uuid, ptr))
  {
    assert msg == Message(msg.replyUuid, ProcessInfoReply(msg.cmd.pid, msg.cmd.cmdLine));
    ProcessInfoResolves(s, msg.replyUuid, msg.cmd.pid, msg.cmd.cmdLine, uuid, ptr);
    ResolveWithProcesses(s, OnProcessInfo(s.processes, msg.cmd.pid, msg.cmd.cmdLine), msg, uuid, ptr);
  }

  lemma ProcessInfoResolves(s: Session, u: Uuid, pid: nat, cmdLine: string, uuid: Uuid, ptr: nat)
    requires uuid !in s.pending && FreshPtr(s, ptr)
    ensures var msg := Message(u, ProcessInfoReply(pid, cmdLine));
      HandleMessage(s, msg, uuid, ptr) == Resolve(s.(processes := OnProcessInfo(s.processes, pid, cmdLine)), msg, uuid, ptr)
  {
  }

  lemma ResolveWithProcesses(s: Session, processes: ProcessTable, msg: Message, uuid: Uuid, ptr: nat)
    requires Valid(s) && uuid !in s.pending && FreshPtr(s, ptr)
    ensures Valid(Resolve(s.(processes := processes), msg, uuid, ptr))
  {
    ProcessesKeepsValid(s, processes);
    ResolveKeepsValid(s.(processes := processes), msg, uuid, ptr);
  }

  lemma CpuStatsReplyKeepsValid(s: Session, msg: Message, uuid: Uuid, ptr: nat)
    requires Valid(s) && uuid !in s.pending && FreshPtr(s, ptr) && msg.cmd.CpuStatsReply?
    ensures Valid(HandleMessage(s, msg, uuid, ptr))
  {
    var id := msg.cmd.id;
    if !(id in s.serverMap && s.serverMap[id].MetricTarget?) {
      var s1 := if id in s.serverMap then s.(out := s.out + [Emit(id, StatsUpdate(msg.cmd.sample))]) else s;
      LogKeepsValid(s, s1.out);
      ResolveKeepsValid(s1, msg, uuid, ptr);
    }
  }

  lemma HandleMessageKeepsValid(s: Session, msg: Message, uuid: Uuid, ptr: nat)
    requires Valid(s) && uuid !in s.pending && FreshPtr(s, ptr)
    ensures Valid(HandleMessage(s, msg, uuid, ptr))
  {
    if msg.cmd.Features? {
      ApplySupportedKeepsValid(s, msg.cmd.supportedGuids);
      ResolveKeepsValid(ApplySupported(s, msg.cmd.supportedGuids), msg, uuid, ptr);
    } else if msg.cmd.ProcessInfoReply? {
      ProcessInfoReplyKeepsValid(s, msg, uuid, ptr);
    } else if msg.cmd.CpuStatsReply? {
      CpuStatsReplyKeepsValid(s, msg, uuid, ptr);
    } else {
      ResolveKeepsValid(s, msg, uuid, ptr);
    }
  }

  /** The invariant survives every inbound frame. */
  lemma OnFrameKeepsValid(s: Session, frame: Bytes, decode: Bytes -> Message, uuid: Uuid, ptr: nat)
    requires Valid(s) && uuid !in s.pending && FreshPtr(s, ptr)
    ensures Valid(OnFrame(s, frame, decode, uuid, ptr))
  {
    if Readable(frame) {
      var h := StreamHandle(frame);
      var data := Payload(frame);
      match Kind(frame)
      case PerfSample =>
        if h in s.serverMap {
          LogKeepsValid(s, s.out + [PerfMessage(OwnerPtr(s, s.serverMap[h]), data)]);
        }
      case I915PerfSample =>
        assert OnFrame(s, frame, decode, uuid, ptr) == I915Frame(s, h, data);
        I915FrameKeepsValid(s, h, data);
      case Protobuf =>
        assert OnFrame(s, frame, decode, uuid, ptr) == HandleMessage(s, decode(data), uuid, ptr);
        HandleMessageKeepsValid(s, decode(data), uuid, ptr);
      case UnknownKind =>
    }
  }

  lemma StartUpdateKeepsValid(s: Session, streamPtr: nat, start: int, end: int, reason: string)
    requires Valid(s)
    ensures Valid(StartUpdate(s, streamPtr, start, end, reason))
  {
  }

  lemma UpdateCounterKeepsValid(s: Session, counterId: nat, max: real, value: real)
    requires Valid(s)
    ensures Valid(UpdateCounter(s, counterId, max, value))
  {
    if s.current.Some? {
      var u := s.current.value;
      if IsCurrent(s, u.guid, u.oid) && counterId < |s.metrics[u.guid].counters| {
        var m := s.metrics[u.guid];
        var c := AppendCounterData(m.counters[counterId], u.start, u.end, max, value, u.reason);
        SetMetricKeepsValid(s, u.guid, m.(counters := m.counters[counterId := c]));
      }
    }
  }

  lemma EndUpdateKeepsValid(s: Session)
    requires Valid(s)
    ensures Valid(EndUpdate(s))
  {
  }
}
