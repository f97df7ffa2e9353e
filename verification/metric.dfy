/** An OA metric set as the client tracks it: whether the kernel supports
    it, whether a close is in flight, the open stream and its configuration,
    the native decoder stream, the counters and the replay history. */
module Metrics {
  import opened Base
  import opened Counters
  import opened History

  /** Sampling exponent used when an open does not give one. */
  const DefaultOaExponent: int := 14

  /** Aggregation period a metric starts with, in nanoseconds. */
  const DefaultPeriodNs: nat := 1000000000

  /** An open request's configuration as the caller passed it. */
  datatype RawConfig = RawConfig(oaExponent: Option<int>, perCtxMode: Option<bool>, paused: Option<bool>)

  /** The configuration an open stream keeps, every option filled in. */
  datatype Config = Config(oaExponent: int, perCtxMode: bool, paused: bool)

  /** Fill in the options the caller left out. */
  function Complete(raw: RawConfig): (c: Config)
    ensures raw.oaExponent.Some? ==> c.oaExponent == raw.oaExponent.value
    ensures raw.oaExponent.None? ==> c.oaExponent == DefaultOaExponent
    ensures c.perCtxMode <==> raw.perCtxMode == Some(true)
    ensures c.paused <==> raw.paused == Some(true)
  {
    Config(raw.oaExponent.GetOr(DefaultOaExponent), raw.perCtxMode.GetOr(false), raw.paused.GetOr(false))
  }

  /** The client-side stream object of an open metric: its own id (drawn from
      the server-handle counter), the handle the server tags its data with
      (0 while paused, when nothing is requested from the server), and the
      configuration it was opened with. */
  datatype OpenStream = OpenStream(id: nat, serverHandle: nat, config: Config)

  datatype Metric = Metric(
    guid: Guid,
    oid: nat,               // identity of this metric object within the session
    supported: bool,
    closing: bool,
    stream: Option<OpenStream>,
    ccStreamPtr: nat,       // native decoder stream, 0 for none
    periodNs: nat,
    counters: seq<Counter>, // indexed by the native counter id
    history: History)

  /** A metric as first looked up by its guid. */
  function NewMetric(guid: Guid, oid: nat): (m: Metric)
    ensures m.guid == guid && m.oid == oid
    ensures !m.supported && !m.closing && m.stream.None? && m.ccStreamPtr == 0
    ensures m.periodNs == DefaultPeriodNs && m.counters == [] && m.history == Empty
  {
    Metric(guid, oid, false, false, None, 0, DefaultPeriodNs, [], Empty)
  }

  /** Every counter's recorded updates dropped, all else kept. */
  function ClearUpdates(cs: seq<Counter>): (r: seq<Counter>)
    ensures |r| == |cs|
    ensures forall i :: 0 <= i < |cs| ==> r[i] == cs[i].(updates := [])
  {
    seq(|cs|, i requires 0 <= i < |cs| => cs[i].(updates := []))
  }

  // ---------------------------------------------------------------------
  // Counter filtering

  /** `filter_counters` options; absent switches take their defaults
      (debug off, active on). */
  datatype FilterOptions = FilterOptions(flags: seq<string>, debug: Option<bool>, active: Option<bool>)

  /** A counter passes when it carries every requested flag, is not the
      `GpuTime` counter (unless debugging), and is not known to read zero
      (when only active counters are wanted). */
  predicate Selected(c: Counter, o: FilterOptions) {
    && (forall j :: 0 <= j < |o.flags| ==> o.flags[j] in c.flags)
    && (o.debug.GetOr(false) || c.symbolName != "GpuTime")
    && !(o.active.GetOr(true) && c.zero)
  }

  /** The counters of `cs` that pass (`want`) or fail (`!want`) the filter,
      in their original order. */
  function Keep(cs: seq<Counter>, o: FilterOptions, want: bool): seq<Counter>
    decreases |cs|
  {
    if |cs| == 0 then []
    else Keep(cs[..|cs| - 1], o, want) + (if Selected(cs[|cs| - 1], o) == want then [cs[|cs| - 1]] else [])
  }

  /** Split the counters into those matching the options and the others,
      each keeping the counters' order. */
  method FilterCounters(cs: seq<Counter>, o: FilterOptions) returns (matched: seq<Counter>, others: seq<Counter>)
    ensures matched == Keep(cs, o, true) && others == Keep(cs, o, false)
    ensures forall c :: c in matched ==> Selected(c, o)
    ensures forall c :: c in others ==> !Selected(c, o)
    ensures multiset(matched) + multiset(others) == multiset(cs)
  {
    matched, others := [], [];
    var i := 0;
    while i < |cs|
      invariant 0 <= i <= |cs|
      invariant matched == Keep(cs[..i], o, true) && others == Keep(cs[..i], o, false)
    {
      var c := cs[i];
      var pass := true;
      var j := 0;
      while j < |o.flags|
        invariant 0 <= j <= |o.flags|
        invariant pass <==> forall k :: 0 <= k < j ==> o.flags[k] in c.flags
      {
        if o.flags[j] !in c.flags {
          pass := false;
          break;
        }
        j := j + 1;
      }
      if !o.debug.GetOr(false) && c.symbolName == "GpuTime" {
        pass := false;
      }
      if o.active.GetOr(true) && c.zero {
        pass := false;
      }
      assert pass == Selected(c, o);
      assert cs[..i + 1][..i] == cs[..i];
      if pass {
        matched := matched + [c];
      } else {
        others := others + [c];
      }
      i := i + 1;
    }
    assert cs[..|cs|] == cs;
    KeepSound(cs, o, true);
    KeepSound(cs, o, false);
    KeepPartition(cs, o);
  }

  /** What each side holds: exactly the counters that pass, or fail. */
  lemma {:induction false} KeepSound(cs: seq<Counter>, o: FilterOptions, want: bool)
    ensures forall c :: c in Keep(cs, o, want) <==> c in cs && Selected(c, o) == want
    decreases |cs|
  {
    if |cs| > 0 {
      var init := cs[..|cs| - 1];
      KeepSound(init, o, want);
      assert cs == init + [cs[|cs| - 1]];
    }
  }

  /** The two sides together are a rearrangement of the input. */
  lemma {:induction false} KeepPartition(cs: seq<Counter>, o: FilterOptions)
    ensures multiset(Keep(cs, o, true)) + multiset(Keep(cs, o, false)) == multiset(cs)
    decreases |cs|
  {
    if |cs| > 0 {
      var init := cs[..|cs| - 1];
      KeepPartition(init, o);
      assert cs == init + [cs[|cs| - 1]];
    }
  }
}
