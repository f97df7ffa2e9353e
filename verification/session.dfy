/** The client session: the metric table and catalog, the two handle tables
    that route inbound data (server handle -> stream owner, native decoder
    stream -> metric), the pending-request table, the counter update being
    decoded, the process table, and the log of everything the session asks
    of the outside world. Every operation is a pure step from one session
    to the next; a reply runs its continuation as a separate step. */
module Sessions {
  import opened Base
  import opened Strings
  import opened Counters
  import opened History
  import opened Metrics
  import opened Frames
  import opened Rpc
  import opened Tracepoints
  import opened Processes

  // ---------------------------------------------------------------------
  // Requests, events, effects

  datatype QueryKind =
    | OaQuery(guid: Guid, periodExponent: int)
    | CpuStatsQuery(samplePeriodMs: nat)

  /** Requests sent to the server. */
  datatype Request =
    | OpenQuery(id: nat, query: QueryKind, overwrite: bool, liveUpdates: bool, perCtxMode: bool)
    | CloseQuery(handle: nat)
    | ProcessInfoQuery(pid: nat)
    | TracepointInfoQuery(name: string)

  datatype ErrorKind = NotSupported | OpenWhileClosing | ReopenWithoutClose | ClosePileUp

  /** Events dispatched on a client stream object. */
  datatype Event = Opened | Closed | Failed(kind: ErrorKind) | StatsUpdate(sample: Bytes)

  /** What the session asks of the outside world, in order. */
  datatype Effect =
    | Send(uuid: Uuid, request: Request)
    | LeakWarning
    | Emit(stream: nat, event: Event)
    | OaStreamNew(ptr: nat, guid: Guid, perCtxMode: bool, periodNs: nat)
    | StreamDestroy(ptr: nat)
    | ResetAccumulator(ptr: nat)
    | UpdatePeriod(ptr: nat, periodNs: nat)
    | PerfMessage(ptr: nat, data: Bytes)
    | I915Message(ptr: nat, data: Bytes)
    | TracepointReady(info: Tracepoint)
    | SocketClosed

  /** The reopen `set_paused` attaches to a close: the configuration to open
      with, whose `paused` is the new state. */
  datatype Reopen = Reopen(config: Config)

  /** What a pending request does when its reply arrives. Continuations of a
      metric name the metric object by guid and object id. */
  datatype Cont =
    | FinalizeOpen(guid: Guid, oid: nat, stream: nat, perCtxMode: bool, replay: bool)
    | FinishClose(guid: Guid, oid: nat, reopen: Option<Reopen>)
    | CpuStatsOpened(handle: nat)
    | DeliverTracepoint
    | Opaque            // a caller-supplied callback, invisible to the session

  /** Owners of a server handle. */
  datatype Target = MetricTarget(guid: Guid) | CpuStatsTarget

  /** The counter update the decoder is in the middle of. */
  datatype Update = Update(guid: Guid, oid: nat, start: int, end: int, reason: string)

  /** Decoded structured messages. */
  datatype Command =
    | Features(supportedGuids: seq<Guid>)
    | ErrorReply
    | LogReply
    | ProcessInfoReply(pid: nat, cmdLine: string)
    | CpuStatsReply(id: nat, sample: Bytes)
    | TracepointInfoReply(id: nat, sampleFormat: string)
    | OtherReply

  datatype Message = Message(replyUuid: Uuid, cmd: Command)

  datatype Session = Session(
    connected: bool,
    nextHandle: nat,
    nextOid: nat,
    serverMap: map<nat, Target>,
    ccMap: map<nat, Guid>,
    pending: map<Uuid, Cont>,
    metrics: map<Guid, Metric>,
    catalog: seq<Guid>,
    current: Option<Update>,
    processes: ProcessTable,
    out: seq<Effect>)

  /** A connected session before any request. */
  function Initial(): (s: Session)
    ensures s.nextHandle == 1 && s.pending == map[] && s.metrics == map[] && s.out == []
  {
    Session(true, 1, 0, map[], map[], map[], map[], [], None, map[], [])
  }

  /** The growth every step keeps: the effect log only grows, and the
      handle and object-id counters never go back. */
  ghost predicate Extends(s: Session, r: Session) {
    s.out <= r.out && s.nextHandle <= r.nextHandle && s.nextOid <= r.nextOid
  }

  /** A native pointer the decoder has just handed out. */
  predicate FreshPtr(s: Session, ptr: nat) {
    ptr != 0 && ptr !in s.ccMap
  }

  /** A continuation still refers to the metric object now in the table. */
  predicate IsCurrent(s: Session, guid: Guid, oid: nat) {
    guid in s.metrics && s.metrics[guid].oid == oid
  }

  function SetMetric(s: Session, guid: Guid, m: Metric): (r: Session)
    ensures r.metrics == s.metrics[guid := m]
    ensures r == s.(metrics := r.metrics)
  {
    s.(metrics := s.metrics[guid := m])
  }

  // ---------------------------------------------------------------------
  // Requests

  /** Send a request under a fresh uuid, filing its continuation; warn once
      the table has grown to the leak ceiling. */
  function RpcRequest(s: Session, uuid: Uuid, req: Request, cont: Option<Cont>): (r: Session)
    requires uuid !in s.pending
    ensures r.pending == Register(s.pending, uuid, cont)
    ensures |r.out| >= |s.out| + 1 && r.out[..|s.out| + 1] == s.out + [Send(uuid, req)]
    ensures r.out[|s.out|] == Send(uuid, req)
    ensures forall i :: |s.out| < i < |r.out| ==> r.out[i] == LeakWarning
    ensures |r.out| == |s.out| + 1 + (if cont.Some? && |r.pending| >= LeakCeiling then 1 else 0)
    ensures r == s.(pending := r.pending, out := r.out)
  {
    var pending := Register(s.pending, uuid, cont);
    var warn := if cont.Some? && |pending| >= LeakCeiling then [LeakWarning] else [];
    s.(pending := pending, out := s.out + [Send(uuid, req)] + warn)
  }

  // ---------------------------------------------------------------------
  // The metric catalog

  /** The metric for a guid, created (and cached) on first use. */
  function LookupMetric(s: Session, guid: Guid): (r: Session)
    ensures guid in r.metrics
    ensures guid in s.metrics ==> r == s
    ensures guid !in s.metrics ==>
      r == s.(metrics := s.metrics[guid := NewMetric(guid, s.nextOid)], nextOid := s.nextOid + 1)
  {
    if guid in s.metrics then s
    else s.(metrics := s.metrics[guid := NewMetric(guid, s.nextOid)], nextOid := s.nextOid + 1)
  }

  /** A metric set read from the metrics description: its metric is looked
      up, given its counters and appended to the catalog. */
  function RegisterMetricSet(s: Session, guid: Guid, counters: seq<Counter>): (r: Session)
    ensures guid in r.metrics && r.metrics[guid].counters == counters
    ensures r.catalog == s.catalog + [guid]
    ensures Extends(s, r)
  {
    var s1 := LookupMetric(s, guid);
    SetMetric(s1, guid, s1.metrics[guid].(counters := counters)).(catalog := s1.catalog + [guid])
  }

  /** Catalog metrics marked unsupported; others are left alone. */
  function ClearSupport(metrics: map<Guid, Metric>, catalog: seq<Guid>): (r: map<Guid, Metric>)
    ensures r.Keys == metrics.Keys
    ensures forall g :: g in r ==> r[g] == metrics[g].(supported := r[g].supported)
    ensures forall g :: g in r ==> (r[g].supported <==> metrics[g].supported && g !in catalog)
    decreases |catalog|
  {
    if |catalog| == 0 then metrics
    else
      var rest := ClearSupport(metrics, catalog[1..]);
      var g := catalog[0];
      if g in rest then rest[g := rest[g].(supported := false)] else rest
  }

  /** One step of `MarkSupported`, on the metric tables alone: marking the
      head and then the rest marks every listed guid. */
  lemma MarkStep(m: map<Guid, Metric>, m1: map<Guid, Metric>, r: map<Guid, Metric>, guids: seq<Guid>)
    requires |guids| > 0
    requires m1.Keys == m.Keys + {guids[0]} && m1[guids[0]].supported
    requires guids[0] in m ==> m1[guids[0]] == m[guids[0]].(supported := true)
    requires forall g :: g in m && g != guids[0] ==> m1[g] == m[g]
    requires r.Keys == m1.Keys + set g | g in guids[1..]
    requires forall g :: g in r ==> (r[g].supported <==> g in guids[1..] || m1[g].supported)
    requires forall g :: g in m1 ==> r[g] == m1[g].(supported := r[g].supported)
    ensures r.Keys == m.Keys + set g | g in guids
    ensures forall g :: g in r ==> (r[g].supported <==> g in guids || m[g].supported)
    ensures forall g :: g in m ==> r[g] == m[g].(supported := r[g].supported)
  {
    assert forall g :: g in guids <==> g == guids[0] || g in guids[1..];
  }

  /** Each listed guid's metric (created when missing) marked supported. */
  function MarkSupported(s: Session, guids: seq<Guid>): (r: Session)
    ensures r.metrics.Keys == s.metrics.Keys + set g | g in guids
    ensures forall g :: g in r.metrics ==>
      (r.metrics[g].supported <==> g in guids || s.metrics[g].supported)
    ensures forall g :: g in s.metrics ==> r.metrics[g] == s.metrics[g].(supported := r.metrics[g].supported)
    ensures r == s.(metrics := r.metrics, nextOid := r.nextOid) && s.nextOid <= r.nextOid
    decreases |guids|
  {
    if |guids| == 0 then s
    else
      var s1 := MarkOne(s, guids[0]);
      var r := MarkSupported(s1, guids[1..]);
      MarkStep(s.metrics, s1.metrics, r.metrics, guids);
      r
  }

  /** One guid's metric (created when missing) marked supported. */
  function MarkOne(s: Session, guid: Guid): (r: Session)
    ensures r.metrics.Keys == s.metrics.Keys + {guid}
    ensures r.metrics[guid].supported
    ensures guid in s.metrics ==> r.metrics[guid] == s.metrics[guid].(supported := true)
    ensures forall g :: g in s.metrics && g != guid ==> r.metrics[g] == s.metrics[g]
    ensures r == s.(metrics := r.metrics, nextOid := r.nextOid) && s.nextOid <= r.nextOid
  {
    var s1 := LookupMetric(s, guid);
    SetMetric(s1, guid, s1.metrics[guid].(supported := true))
  }

  /** The features reply: the catalog's metrics are supported exactly when
      the kernel lists their guid; a listed guid outside the catalog gets a
      metric of its own. */
  function ApplySupported(s: Session, guids: seq<Guid>): (r: Session)
    ensures r.metrics.Keys == s.metrics.Keys + set g | g in guids
    ensures forall g :: g in r.metrics ==>
      (r.metrics[g].supported <==> g in guids || (g in s.metrics && g !in s.catalog && s.metrics[g].supported))
    ensures r == s.(metrics := r.metrics, nextOid := r.nextOid) && s.nextOid <= r.nextOid
  {
    MarkSupported(s.(metrics := ClearSupport(s.metrics, s.catalog)), guids)
  }

  // ---------------------------------------------------------------------
  // Metric data

  /** The decoder's accumulator reset and every counter's updates dropped. */
  function ClearMetricData(s: Session, guid: Guid): (r: Session)
    requires guid in s.metrics
    ensures var m := s.metrics[guid];
      && r.metrics == s.metrics[guid := m.(counters := ClearUpdates(m.counters))]
      && r.out == s.out + [ResetAccumulator(m.ccStreamPtr)]
    ensures r == s.(metrics := r.metrics, out := r.out)
  {
    var m := s.metrics[guid];
    SetMetric(s, guid, m.(counters := ClearUpdates(m.counters))).(out := s.out + [ResetAccumulator(m.ccStreamPtr)])
  }

  /** One decoder call per history frame, oldest first. */
  function FeedAll(ptr: nat, frames: seq<Bytes>): (effs: seq<Effect>)
    ensures |effs| == |frames|
    ensures forall i :: 0 <= i < |frames| ==> effs[i] == I915Message(ptr, frames[i])
  {
    seq(|frames|, i requires 0 <= i < |frames| => I915Message(ptr, frames[i]))
  }

  /** Clear the metric's data and feed its history back to the decoder. */
  function ReplayBuffer(s: Session, guid: Guid): (r: Session)
    requires guid in s.metrics
    ensures var m := s.metrics[guid];
      && r.metrics == s.metrics[guid := m.(counters := ClearUpdates(m.counters))]
      && r.out == s.out + [ResetAccumulator(m.ccStreamPtr)] + FeedAll(m.ccStreamPtr, m.history.frames)
    ensures r == s.(metrics := r.metrics, out := r.out)
  {
    var m := s.metrics[guid];
    var s1 := ClearMetricData(s, guid);
    s1.(out := s1.out + FeedAll(m.ccStreamPtr, m.history.frames))
  }

  /** A new aggregation period, passed on to the decoder stream if there is one. */
  function SetAggregationPeriod(s: Session, guid: Guid, periodNs: nat): (r: Session)
    requires guid in s.metrics
    ensures var m := s.metrics[guid];
      && r.metrics == s.metrics[guid := m.(periodNs := periodNs)]
      && r.out == s.out + (if m.ccStreamPtr != 0 then [UpdatePeriod(m.ccStreamPtr, periodNs)] else [])
    ensures r == s.(metrics := r.metrics, out := r.out)
  {
    var m := s.metrics[guid];
    var s1 := SetMetric(s, guid, m.(periodNs := periodNs));
    if m.ccStreamPtr != 0 then s1.(out := s1.out + [UpdatePeriod(m.ccStreamPtr, periodNs)]) else s1
  }

  // ---------------------------------------------------------------------
  // Opening and closing

  /** `_finalize_open`: a native decoder stream is created for the metric and
      filed in the pointer table, and the stream object hears "open"; with a
      replay listener, the history is then replayed into the new stream. */
  function FinalizeNow(s: Session, guid: Guid, stream: nat, perCtxMode: bool, replay: bool, ptr: nat): (r: Session)
    requires guid in s.metrics && FreshPtr(s, ptr)
    ensures guid in r.metrics && r.metrics[guid].ccStreamPtr == ptr
    ensures r.ccMap == s.ccMap[ptr := guid] && r.serverMap == s.serverMap && r.pending == s.pending
    ensures r.metrics.Keys == s.metrics.Keys
    ensures var m := s.metrics[guid];
      && |r.out| >= |s.out| + 2
      && r.out[..|s.out| + 2] == s.out + [OaStreamNew(ptr, guid, perCtxMode, m.periodNs), Emit(stream, Opened)]
    ensures Extends(s, r) && r.nextHandle == s.nextHandle && r.nextOid == s.nextOid
    ensures r.connected == s.connected && r.catalog == s.catalog && r.current == s.current && r.processes == s.processes
  {
    var m := s.metrics[guid];
    var s1 := SetMetric(s, guid, m.(ccStreamPtr := ptr))
      .(ccMap := s.ccMap[ptr := guid],
        out := s.out + [OaStreamNew(ptr, guid, perCtxMode, m.periodNs), Emit(stream, Opened)]);
    if replay then ReplayBuffer(s1, guid) else s1
  }

  /** Why an open is refused, checked in the client's order. */
  function OpenRefusal(m: Metric): (r: Option<ErrorKind>)
    ensures r.None? <==> m.supported && !m.closing && m.stream.None?
    ensures !m.supported ==> r == Some(NotSupported)
  {
    if !m.supported then Some(NotSupported)
    else if m.closing then Some(OpenWhileClosing)
    else if m.stream.Some? then Some(ReopenWithoutClose)
    else None
  }

  /** `Metric.open` with a completed configuration. The new stream object
      takes the next server handle whether or not the open goes ahead. A
      paused open asks nothing of the server and finalizes at once (`ptr` is
      the decoder stream it gets); a live open files its server handle,
      empties the history and sends one `open_query` under `uuid`, and
      finalizes when the reply arrives. `replay` is the `set_paused` replay
      listener. */
  function OpenWith(s: Session, guid: Guid, config: Config, replay: bool, uuid: Uuid, ptr: nat): (r: Session)
    requires guid in s.metrics && uuid !in s.pending && FreshPtr(s, ptr)
    ensures r.nextHandle == s.nextHandle + 1 && Extends(s, r)
    ensures guid in r.metrics && r.metrics.Keys == s.metrics.Keys
  {
    var id := s.nextHandle;
    var s1 := s.(nextHandle := id + 1);
    match OpenRefusal(s.metrics[guid])
    case Some(kind) => s1.(out := s1.out + [Emit(id, Failed(kind))])
    case None =>
      if config.paused then OpenPaused(s1, guid, id, config, replay, ptr)
      else OpenLive(s1, guid, id, config, replay, uuid)
  }

  /** The paused branch of an accepted open: the stream has no server
      handle and is finalized at once. */
  function OpenPaused(s: Session, guid: Guid, id: nat, config: Config, replay: bool, ptr: nat): (r: Session)
    requires guid in s.metrics && FreshPtr(s, ptr)
    ensures Extends(s, r) && r.nextHandle == s.nextHandle
    ensures guid in r.metrics && r.metrics.Keys == s.metrics.Keys
  {
    var s1 := SetMetric(s, guid, s.metrics[guid].(stream := Some(OpenStream(id, 0, config))));
    FinalizeNow(s1, guid, id, config.perCtxMode, replay, ptr)
  }

  /** The live branch of an accepted open: the server handle is filed, one
      `open_query` is sent, and the history restarts empty. */
  function OpenLive(s: Session, guid: Guid, id: nat, config: Config, replay: bool, uuid: Uuid): (r: Session)
    requires guid in s.metrics && uuid !in s.pending
    ensures Extends(s, r) && r.nextHandle == s.nextHandle
    ensures guid in r.metrics && r.metrics.Keys == s.metrics.Keys
  {
    var m := s.metrics[guid];
    var s1 := SetMetric(s, guid, m.(stream := Some(OpenStream(id, id, config))))
      .(serverMap := s.serverMap[id := MetricTarget(guid)]);
    var req := OpenQuery(id, OaQuery(guid, config.oaExponent), false, true, config.perCtxMode);
    var s2 := RpcRequest(s1, uuid, req, Some(FinalizeOpen(guid, m.oid, id, config.perCtxMode, replay)));
    SetMetric(s2, guid, s2.metrics[guid].(history := Empty))
  }

  /** `Metric.open` as called: the options the caller left out are filled in first. */
  function Open(s: Session, guid: Guid, config: RawConfig, replay: bool, uuid: Uuid, ptr: nat): (r: Session)
    requires guid in s.metrics && uuid !in s.pending && FreshPtr(s, ptr)
    ensures r.nextHandle == s.nextHandle + 1 && Extends(s, r)
  {
    OpenWith(s, guid, Complete(config), replay, uuid, ptr)
  }

  /** `destroy_stream`: the decoder stream is destroyed and both table
      entries dropped. A metric without a stream object makes the client
      throw after the decoder stream is gone, which the second component
      reports as `false`. */
  function DestroyStream(s: Session, guid: Guid): (r: (Session, bool))
    requires guid in s.metrics
    ensures var m := s.metrics[guid];
      && r.1 == m.stream.Some?
      && r.0.ccMap == s.ccMap - {m.ccStreamPtr}
      && r.0.out == s.out + [StreamDestroy(m.ccStreamPtr)]
      && (r.1 ==> r.0.serverMap == s.serverMap - {m.stream.value.serverHandle}
                  && r.0.metrics == s.metrics[guid := m.(stream := None, ccStreamPtr := 0)])
      && (!r.1 ==> r.0.serverMap == s.serverMap && r.0.metrics == s.metrics)
    ensures r.0 == s.(ccMap := r.0.ccMap, serverMap := r.0.serverMap, metrics := r.0.metrics, out := r.0.out)
  {
    var m := s.metrics[guid];
    var s1 := s.(ccMap := s.ccMap - {m.ccStreamPtr}, out := s.out + [StreamDestroy(m.ccStreamPtr)]);
    if m.stream.None? then (s1, false)
    else
      var s2 := SetMetric(s1, guid, m.(stream := None, ccStreamPtr := 0))
        .(serverMap := s1.serverMap - {m.stream.value.serverHandle});
      (s2, true)
  }

  /** The work `_finish_close` does before its final event: the stream is
      torn down, the metric stops closing and the close's follow-up (a
      `set_paused` reopen) runs. The second component is `false` when the
      teardown threw. */
  function TeardownAndReopen(s: Session, guid: Guid, reopen: Option<Reopen>, uuid: Uuid, ptr: nat): (r: (Session, bool))
    requires guid in s.metrics && uuid !in s.pending && FreshPtr(s, ptr)
    ensures r.1 == s.metrics[guid].stream.Some?
    ensures Extends(s, r.0) && guid in r.0.metrics
  {
    var (s1, ok) := DestroyStream(s, guid);
    if !ok then (s1, false)
    else
      var s2 := SetMetric(s1, guid, s1.metrics[guid].(closing := false));
      match reopen
      case None => (s2, true)
      case Some(Reopen(config)) =>
        if config.paused then (OpenWith(s2, guid, config, true, uuid, ptr), true)
        else (OpenWith(ClearMetricData(s2, guid), guid, config, false, uuid, ptr), true)
  }

  /** `_finish_close` as evidently intended: after the teardown and the
      follow-up, the stream object that was closed hears "close". The
      second component is `false` when the teardown threw. */
  function FinishCloseNow(s: Session, guid: Guid, reopen: Option<Reopen>, uuid: Uuid, ptr: nat): (r: (Session, bool))
    requires guid in s.metrics && uuid !in s.pending && FreshPtr(s, ptr)
    ensures r.1 == s.metrics[guid].stream.Some?
    ensures Extends(s, r.0) && guid in r.0.metrics
  {
    var (s1, ok) := TeardownAndReopen(s, guid, reopen, uuid, ptr);
    if ok then (s1.(out := s1.out + [Emit(s.metrics[guid].stream.value.id, Closed)]), true)
    else (s1, false)
  }

  /** `_finish_close` as written: its final event is dispatched on a name
      the function never binds, so once the teardown and the follow-up are
      done it always throws (second component `false`) and no stream
      object hears "close". */
  function FinishCloseAsWritten(s: Session, guid: Guid, reopen: Option<Reopen>, uuid: Uuid, ptr: nat): (r: (Session, bool))
    requires guid in s.metrics && uuid !in s.pending && FreshPtr(s, ptr)
    ensures !r.1
    ensures r.0 == TeardownAndReopen(s, guid, reopen, uuid, ptr).0
  {
    (TeardownAndReopen(s, guid, reopen, uuid, ptr).0, false)
  }

  /** `Metric.close`: nothing without a stream; a "Pile Up" error while a
      close is already in flight; otherwise the metric starts closing and
      is torn down at once (no server handle: paused) or when the
      `close_query` sent under `uuid` is answered. */
  function Close(s: Session, guid: Guid, reopen: Option<Reopen>, uuid: Uuid, ptr: nat): (r: Session)
    requires guid in s.metrics && uuid !in s.pending && FreshPtr(s, ptr)
    ensures Extends(s, r) && guid in r.metrics
  {
    var m := s.metrics[guid];
    match m.stream
    case None => s
    case Some(st) =>
      if m.closing then s.(out := s.out + [Emit(st.id, Failed(ClosePileUp))])
      else StartClose(s, guid, reopen, uuid, ptr)
  }

  /** The metric starts closing: a paused stream (no server handle) is torn
      down at once, a live one once the `close_query` is answered. */
  function StartClose(s: Session, guid: Guid, reopen: Option<Reopen>, uuid: Uuid, ptr: nat): (r: Session)
    requires guid in s.metrics && s.metrics[guid].stream.Some? && uuid !in s.pending && FreshPtr(s, ptr)
    ensures Extends(s, r) && guid in r.metrics
    ensures var m := s.metrics[guid]; var h := m.stream.value.serverHandle;
      h != 0 ==>
        && r.metrics == s.metrics[guid := m.(closing := true)]
        && r.pending == s.pending[uuid := FinishClose(guid, m.oid, reopen)]
        && Send(uuid, CloseQuery(h)) in r.out
  {
    var m := s.metrics[guid];
    var s1 := SetMetric(s, guid, m.(closing := true));
    var h := m.stream.value.serverHandle;
    if h == 0 then FinishCloseNow(s1, guid, reopen, uuid, ptr).0
    else RpcRequest(s1, uuid, CloseQuery(h), Some(FinishClose(guid, m.oid, reopen)))
  }

  /** `set_paused`: a metric with a stream, not closing and not already in
      the requested state, is closed and reopened with the new state. */
  function SetPaused(s: Session, guid: Guid, paused: bool, uuid: Uuid, ptr: nat): (r: Session)
    requires guid in s.metrics && uuid !in s.pending && FreshPtr(s, ptr)
    ensures Extends(s, r) && guid in r.metrics
    ensures var m := s.metrics[guid];
      m.stream.None? || m.stream.value.config.paused == paused || m.closing ==> r == s
  {
    var m := s.metrics[guid];
    match m.stream
    case None => s
    case Some(st) =>
      if st.config.paused == paused || m.closing then s
      else Close(s, guid, Some(Reopen(st.config.(paused := paused))), uuid, ptr)
  }

  /** `request_open_cpu_stats`: a stream object with the next server handle,
      and one `open_query` for it; its handle is filed when the reply runs. */
  function RequestOpenCpuStats(s: Session, samplePeriodMs: Option<nat>, uuid: Uuid): (r: Session)
    requires uuid !in s.pending
    ensures r.nextHandle == s.nextHandle + 1
    ensures r.pending == s.pending[uuid := CpuStatsOpened(s.nextHandle)]
    ensures |r.out| > |s.out| && r.out[|s.out|] == Send(uuid, OpenQuery(s.nextHandle, CpuStatsQuery(samplePeriodMs.GetOr(10)), false, true, false))
    ensures Extends(s, r) && r.serverMap == s.serverMap && r.metrics == s.metrics
  {
    var id := s.nextHandle;
    var req := OpenQuery(id, CpuStatsQuery(samplePeriodMs.GetOr(10)), false, true, false);
    RpcRequest(s.(nextHandle := id + 1), uuid, req, Some(CpuStatsOpened(id)))
  }

  function GetProcessInfo(s: Session, pid: nat, withCallback: bool, uuid: Uuid): (r: Session)
    requires uuid !in s.pending
    ensures r.pending == if withCallback then s.pending[uuid := Opaque] else s.pending
    ensures |r.out| > |s.out| && r.out[|s.out|] == Send(uuid, ProcessInfoQuery(pid))
    ensures Extends(s, r)
  {
    if withCallback then RpcRequest(s, uuid, ProcessInfoQuery(pid), Some(Opaque))
    else RpcRequest(s, uuid, ProcessInfoQuery(pid), None)
  }

  function GetTracepointInfo(s: Session, name: string, uuid: Uuid): (r: Session)
    requires uuid !in s.pending
    ensures r.pending == s.pending[uuid := DeliverTracepoint]
    ensures |r.out| > |s.out| && r.out[|s.out|] == Send(uuid, TracepointInfoQuery(name))
    ensures Extends(s, r)
  {
    RpcRequest(s, uuid, TracepointInfoQuery(name), Some(DeliverTracepoint))
  }

  // ---------------------------------------------------------------------
  // Teardown

  /** The catalog walk of `dispose`: each metric not closing and holding a
      decoder stream has it destroyed. A destroy that throws ends the walk
      (second component `false`). */
  function DestroyAll(s: Session, guids: seq<Guid>): (r: (Session, bool))
    ensures Extends(s, r.0) && r.0.nextHandle == s.nextHandle && r.0.nextOid == s.nextOid
    ensures r.0.metrics.Keys == s.metrics.Keys && r.0.pending == s.pending
    ensures r.0.connected == s.connected
    decreases |guids|
  {
    if |guids| == 0 then (s, true)
    else
      var g := guids[0];
      if g in s.metrics && !s.metrics[g].closing && s.metrics[g].ccStreamPtr != 0 then
        var (s1, ok) := DestroyStream(s, g);
        if ok then DestroyAll(s1, guids[1..]) else (s1, false)
      else DestroyAll(s, guids[1..])
  }

  /** `dispose`: the socket is closed, live decoder streams are destroyed and
      the metric catalog and both handle tables are emptied. Pending
      continuations, the process table and the update in progress are kept. */
  function Dispose(s: Session): (r: Session)
    ensures !r.connected && Extends(s, r) && r.pending == s.pending
    ensures r.nextHandle == s.nextHandle && r.nextOid == s.nextOid
  {
    var s1 := if s.connected then s.(connected := false, out := s.out + [SocketClosed]) else s;
    var (s2, ok) := DestroyAll(s1, s1.catalog);
    if ok then s2.(metrics := map[], catalog := [], ccMap := map[], serverMap := map[])
    else s2
  }

  // ---------------------------------------------------------------------
  // Inbound traffic

  /** The decoder stream behind a server handle's owner (a cpu-stats stream
      has none and passes an undefined pointer, received as 0). */
  function OwnerPtr(s: Session, t: Target): (p: nat)
    ensures p != 0 ==> t.MetricTarget? && t.guid in s.metrics && s.metrics[t.guid].ccStreamPtr == p
  {
    match t
    case MetricTarget(g) => if g in s.metrics then s.metrics[g].ccStreamPtr else 0
    case CpuStatsTarget => 0
  }

  /** A continuation run by its reply; the second component is `true` when
      the continuation throws, which leaves its entry pending. */
  function RunCont(s: Session, c: Cont, msg: Message, uuid: Uuid, ptr: nat): (r: (Session, bool))
    requires uuid !in s.pending && FreshPtr(s, ptr)
    ensures Extends(s, r.0)
  {
    match c
    case FinalizeOpen(g, oid, stream, perCtxMode, replay) =>
      if IsCurrent(s, g, oid) then (FinalizeNow(s, g, stream, perCtxMode, replay, ptr), false)
      else (s, false)
    case FinishClose(g, oid, reopen) =>
      if IsCurrent(s, g, oid) then
        var (s1, ok) := FinishCloseNow(s, g, reopen, uuid, ptr);
        (s1, !ok)
      else (s, false)
    case CpuStatsOpened(h) =>
      (s.(serverMap := s.serverMap[h := CpuStatsTarget], out := s.out + [Emit(h, Opened)]), false)
    case DeliverTracepoint =>
      (match msg.cmd
       case TracepointInfoReply(_, format) =>
         (match ParseFormat(format)
          case Some(t) => (s.(out := s.out + [TracepointReady(t)]), false)
          case None => (s, true))
       case _ => (s, true))
    case Opaque => (s, false)
  }

  /** Reply resolution: a pending `replyUuid` runs its continuation and the
      entry is then removed, unless the continuation threw. */
  function Resolve(s: Session, msg: Message, uuid: Uuid, ptr: nat): (r: Session)
    requires uuid !in s.pending && FreshPtr(s, ptr)
    ensures Extends(s, r)
    ensures msg.replyUuid !in s.pending ==> r == s
  {
    if msg.replyUuid in s.pending then
      var (s1, threw) := RunCont(s, s.pending[msg.replyUuid], msg, uuid, ptr);
      Retire(s1, msg.replyUuid, threw)
    else s
  }

  /** After a continuation ran: its entry is dropped unless it threw. */
  function Retire(s: Session, u: Uuid, threw: bool): (r: Session)
    ensures threw ==> r == s
    ensures !threw ==> u !in r.pending && r == s.(pending := s.pending - {u})
  {
    if threw then s else s.(pending := s.pending - {u})
  }

  /** A structured message: the command's own handling, then reply
      resolution. A cpu-stats sample addressed to a metric makes the client
      throw before resolution, so nothing changes. */
  function HandleMessage(s: Session, msg: Message, uuid: Uuid, ptr: nat): (r: Session)
    requires uuid !in s.pending && FreshPtr(s, ptr)
    ensures Extends(s, r)
  {
    match msg.cmd
    case Features(guids) =>
      var s1 := ApplySupported(s, guids);
      Resolve(s1, msg, uuid, ptr)
    case ProcessInfoReply(pid, cmdLine) =>
      Resolve(s.(processes := OnProcessInfo(s.processes, pid, cmdLine)), msg, uuid, ptr)
    case CpuStatsReply(id, sample) =>
      if id in s.serverMap && s.serverMap[id].MetricTarget? then s
      else
        var s1 := if id in s.serverMap then s.(out := s.out + [Emit(id, StatsUpdate(sample))]) else s;
        Resolve(s1, msg, uuid, ptr)
    case _ => Resolve(s, msg, uuid, ptr)
  }

  /** An inbound websocket frame. Frames too short to hold the header are
      refused before anything happens; `decode` stands for the protobuf
      decoder, `uuid` and `ptr` for the fresh uuid and decoder stream any
      continuation the frame triggers may need. */
  function OnFrame(s: Session, frame: Bytes, decode: Bytes -> Message, uuid: Uuid, ptr: nat): (r: Session)
    requires uuid !in s.pending && FreshPtr(s, ptr)
    ensures Extends(s, r)
  {
    if !Readable(frame) then s
    else
      match Kind(frame)
      case PerfSample =>
        var h := StreamHandle(frame);
        if h in s.serverMap then s.(out := s.out + [PerfMessage(OwnerPtr(s, s.serverMap[h]), Payload(frame))])
        else s
      case I915PerfSample => I915Frame(s, StreamHandle(frame), Payload(frame))
      case Protobuf => HandleMessage(s, decode(Payload(frame)), uuid, ptr)
      case UnknownKind => s
  }

  /** An OA sample frame: a known metric's history takes the payload and its
      decoder stream is fed it; an unknown handle changes nothing, and a
      handle owned by a cpu-stats stream makes the client throw. */
  function I915Frame(s: Session, h: nat, data: Bytes): (r: Session)
    ensures Extends(s, r)
  {
    if h in s.serverMap && s.serverMap[h].MetricTarget? && s.serverMap[h].guid in s.metrics then
      var m := s.metrics[s.serverMap[h].guid];
      SetMetric(s, s.serverMap[h].guid, m.(history := Push(m.history, data))).(out := s.out + [I915Message(m.ccStreamPtr, data)])
    else s
  }

  /** The OA sample step with the client's buffer as written: routed like
      `I915Frame`, but the history grows by `PushAsWritten`, whose size
      field is never reduced. The session's own frame handling uses the
      corrected buffer; this step keeps the client's for comparison. */
  function I915FrameAsWritten(s: Session, h: nat, data: Bytes): (r: Session)
    ensures Extends(s, r)
    ensures h in s.serverMap && s.serverMap[h].MetricTarget? && s.serverMap[h].guid in s.metrics ==>
      var g := s.serverMap[h].guid;
      && r.metrics.Keys == s.metrics.Keys
      && r.metrics[g].history.size == s.metrics[g].history.size + |data|
      && r.metrics[g] == s.metrics[g].(history := r.metrics[g].history)
      && (forall x :: x in s.metrics && x != g ==> r.metrics[x] == s.metrics[x])
    ensures !(h in s.serverMap && s.serverMap[h].MetricTarget? && s.serverMap[h].guid in s.metrics) ==> r == s
  {
    if h in s.serverMap && s.serverMap[h].MetricTarget? && s.serverMap[h].guid in s.metrics then
      var m := s.metrics[s.serverMap[h].guid];
      SetMetric(s, s.serverMap[h].guid, m.(history := PushAsWritten(m.history, data))).(out := s.out + [I915Message(m.ccStreamPtr, data)])
    else s
  }

  // ---------------------------------------------------------------------
  // Decoder callbacks

  /** The decoder starts an update for one of its streams; an unknown
      stream clears the update in progress. */
  function StartUpdate(s: Session, streamPtr: nat, start: int, end: int, reason: string): (r: Session)
    ensures r == s.(current := r.current)
    ensures r.current.Some? <==> streamPtr in s.ccMap && s.ccMap[streamPtr] in s.metrics
    ensures r.current.Some? ==>
      r.current.value == Update(s.ccMap[streamPtr], s.metrics[s.ccMap[streamPtr]].oid, start, end, reason)
  {
    if streamPtr in s.ccMap && s.ccMap[streamPtr] in s.metrics then
      var g := s.ccMap[streamPtr];
      s.(current := Some(Update(g, s.metrics[g].oid, start, end, reason)))
    else s.(current := None)
  }

  /** One counter reading of the update in progress, appended to the
      counter with that native index; without an update, or with an index
      past the metric's counters, nothing happens. */
  function UpdateCounter(s: Session, counterId: nat, max: real, value: real): (r: Session)
    ensures r == s.(metrics := r.metrics)
  {
    match s.current
    case None => s
    case Some(u) =>
      if !IsCurrent(s, u.guid, u.oid) then s
      else
        var m := s.metrics[u.guid];
        if counterId >= |m.counters| then s
        else
          var c := AppendCounterData(m.counters[counterId], u.start, u.end, max, value, u.reason);
          SetMetric(s, u.guid, m.(counters := m.counters[counterId := c]))
  }

  /** The decoder ends the update in progress. */
  function EndUpdate(s: Session): (r: Session)
    ensures r == s.(current := None)
  {
    s.(current := None)
  }
}
