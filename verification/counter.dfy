/** A counter of an OA metric set and the aggregation of decoded samples
    into its latest reading, inferred maximum and bounded update history. */
module Counters {

  /** Most recent entries `updates` keeps when recording. */
  const MaxUpdates: nat := 2000

  const NsPerSecond: real := 1000000000.0

  /** One recorded `[start, end, value, max, reason]` tuple. */
  datatype Sample = Sample(start: int, end: int, value: real, max: real, reason: string)

  datatype Counter = Counter(
    name: string,
    symbolName: string,
    flags: seq<string>,
    zero: bool,
    units: string,
    unitsScale: real,
    durationDependent: bool,
    latestValue: real,
    latestMax: real,
    latestDuration: int,
    inferredMax: real,
    updates: seq<Sample>,
    recordData: bool)

  /** Units after normalisation, the factor that converts into them, and
      whether the reading is a per-period amount to be turned into a rate. */
  datatype UnitRule = UnitRule(units: string, scale: real, durationDependent: bool)

  /** The unit rule applied while loading a counter description. */
  function DeriveUnits(units: string): (r: UnitRule)
    ensures r.scale > 0.0
    ensures r.units != "us" && r.units != "mhz"
    ensures !r.durationDependent <==> r.units == "hz" || r.units == "percent"
    ensures units == "us" ==> r == UnitRule("ns", 1000.0, true)
    ensures units == "mhz" ==> r == UnitRule("hz", 1000000.0, false)
    ensures units != "us" && units != "mhz" ==> r.units == units && r.scale == 1.0
  {
    var (u1, s1) := if units == "us" then ("ns", 1000.0) else (units, 1.0);
    var (u2, s2) := if u1 == "mhz" then ("hz", s1 * 1000000.0) else (u1, s1);
    UnitRule(u2, s2, !(u2 == "hz" || u2 == "percent"))
  }

  /** Normalised units are a fixed point of the rule: loading a counter
      already in its normalised units scales by 1 and keeps its rate flag. */
  lemma DeriveUnitsNormalises(units: string)
    ensures var r := DeriveUnits(units);
      DeriveUnits(r.units) == UnitRule(r.units, 1.0, r.durationDependent)
  {
  }

  /** A freshly described counter: nothing seen yet, not recording. */
  function NewCounter(name: string, symbolName: string, flags: seq<string>, units: string): (c: Counter)
    ensures Bounded(c) && c.updates == [] && !c.recordData
    ensures var u := DeriveUnits(units);
      c.units == u.units && c.unitsScale == u.scale && c.durationDependent == u.durationDependent
    ensures c.latestValue == 0.0 && c.latestMax == 0.0 && c.inferredMax == 0.0 && c.latestDuration == 0
  {
    var rule := DeriveUnits(units);
    Counter(name, symbolName, flags, false, rule.units, rule.scale, rule.durationDependent,
            0.0, 0.0, 0, 0.0, [], false)
  }

  /** The reading after unit scaling and, for per-period counters over a
      non-empty window, conversion into a per-second rate. */
  function Normalise(c: Counter, start: int, end: int, raw: real): (v: real)
    ensures !c.durationDependent || end == start ==> v == raw * c.unitsScale
    ensures c.durationDependent && end != start ==>
      v * (end - start) as real == raw * c.unitsScale * NsPerSecond
  {
    var scaled := raw * c.unitsScale;
    if c.durationDependent && end - start != 0 then scaled * (NsPerSecond / (end - start) as real)
    else scaled
  }

  function Max(a: real, b: real): real {
    if a >= b then a else b
  }

  /** The inferred maximum is an upper bound on the latest reading. */
  ghost predicate Bounded(c: Counter) {
    c.inferredMax >= c.latestValue && c.inferredMax >= c.latestMax
  }

  /** `updates` after recording one more sample: appended, oldest dropped past the cap. */
  function Record(updates: seq<Sample>, s: Sample): (r: seq<Sample>)
    ensures |updates| <= MaxUpdates ==> |r| == (if |updates| < MaxUpdates then |updates| + 1 else MaxUpdates)
    ensures 0 < |r| <= |updates| + 1 && r[|r| - 1] == s
    ensures r == (updates + [s])[|updates| + 1 - |r|..]
  {
    var u := updates + [s];
    if |u| > MaxUpdates then u[1..] else u
  }

  /** `append_counter_data(start, end, max, value, reason)`. */
  function AppendCounterData(c: Counter, start: int, end: int, max: real, value: real, reason: string): (r: Counter)
    // the reading is always the normalised sample, whether or not it changed
    ensures r.latestValue == Normalise(c, start, end, value)
    ensures r.latestMax == Normalise(c, start, end, max)
    ensures r.latestDuration == if c.latestValue != r.latestValue || c.latestMax != r.latestMax then end - start
                                else c.latestDuration
    // the inferred maximum only grows, and only on a change
    ensures r.inferredMax >= c.inferredMax
    ensures c.latestValue == r.latestValue && c.latestMax == r.latestMax ==> r.inferredMax == c.inferredMax
    ensures c.latestValue != r.latestValue || c.latestMax != r.latestMax ==>
      r.inferredMax == Max(c.inferredMax, Max(r.latestValue, r.latestMax))
    ensures Bounded(c) ==> Bounded(r)
    // history
    ensures c.recordData ==> r.updates == Record(c.updates, Sample(start, end, r.latestValue, r.latestMax, reason))
    ensures !c.recordData ==> r.updates == c.updates
    // identity and configuration are untouched
    ensures r.(latestValue := c.latestValue, latestMax := c.latestMax, latestDuration := c.latestDuration,
               inferredMax := c.inferredMax, updates := c.updates) == c
  {
    var duration := end - start;
    var v := Normalise(c, start, end, value);
    var m := Normalise(c, start, end, max);
    var c1 := if c.recordData then c.(updates := Record(c.updates, Sample(start, end, v, m, reason))) else c;
    TakeReading(c1, v, m, duration)
  }

  /** The second half of `append_counter_data`: a reading that differs from
      the latest one replaces it, with its duration, and may raise the
      inferred maximum; the same reading again changes nothing. */
  function TakeReading(c: Counter, v: real, m: real, duration: int): (r: Counter)
    ensures r.latestValue == v && r.latestMax == m
    ensures r.latestDuration == if c.latestValue != v || c.latestMax != m then duration else c.latestDuration
    ensures r.inferredMax >= c.inferredMax
    ensures c.latestValue == v && c.latestMax == m ==> r == c
    ensures c.latestValue != v || c.latestMax != m ==> r.inferredMax == Max(c.inferredMax, Max(v, m))
    ensures Bounded(c) ==> Bounded(r)
    ensures r.(latestValue := c.latestValue, latestMax := c.latestMax, latestDuration := c.latestDuration,
               inferredMax := c.inferredMax) == c
  {
    if c.latestValue != v || c.latestMax != m then
      var i1 := if v > c.inferredMax then v else c.inferredMax;
      var i2 := if m > i1 then m else i1;
      c.(latestValue := v, latestMax := m, latestDuration := duration, inferredMax := i2)
    else c
  }

  /** A raw sample as the decoding engine reports it. */
  datatype Raw = Raw(start: int, end: int, max: real, value: real, reason: string)

  /** Appending a run of samples, one call per sample window. */
  function AppendAll(c: Counter, samples: seq<Raw>): Counter
    decreases |samples|
  {
    if |samples| == 0 then c
    else
      var s := samples[0];
      AppendAll(AppendCounterData(c, s.start, s.end, s.max, s.value, s.reason), samples[1..])
  }

  /** What one raw sample turns into in the counter's history. */
  function Recorded(c: Counter, s: Raw): Sample {
    Sample(s.start, s.end, Normalise(c, s.start, s.end, s.value), Normalise(c, s.start, s.end, s.max), s.reason)
  }

  function RecordedAll(c: Counter, samples: seq<Raw>): seq<Sample>
    decreases |samples|
  {
    if |samples| == 0 then [] else [Recorded(c, samples[0])] + RecordedAll(c, samples[1..])
  }

  // ---------------------------------------------------------------------

  /** The example from the counter description: a microsecond counter that
      read 500 over a 1 ms window reports 500,000,000 ns per second. */
  lemma MicrosecondRate()
    ensures var c := NewCounter("EU Active", "EuActive", [], "us");
      && c.units == "ns" && c.unitsScale == 1000.0 && c.durationDependent
      && AppendCounterData(c, 0, 1000000, 0.0, 500.0, "timer").latestValue == 500000000.0
  {
  }

  /** Megahertz counters become hertz, scaled by a million, and are not rates. */
  lemma FrequencyIsNotARate(start: int, end: int, raw: real)
    ensures var c := NewCounter("GPU Freq", "AvgGpuCoreFrequency", [], "mhz");
      c.units == "hz" && Normalise(c, start, end, raw) == raw * 1000000.0
  {
  }

  /** Scaling is skipped for an empty window even on a per-period counter. */
  lemma EmptyWindowIsNotARate(c: Counter, t: int, raw: real)
    ensures Normalise(c, t, t, raw) == raw * c.unitsScale
  {
  }

  /** One append, in the terms the run lemmas need. */
  lemma AppendStep(c: Counter, s: Raw)
    requires Bounded(c)
    ensures var r := AppendCounterData(c, s.start, s.end, s.max, s.value, s.reason);
      && Bounded(r)
      && r.inferredMax >= c.inferredMax
      && r.latestValue == Normalise(c, s.start, s.end, s.value)
      && r.latestMax == Normalise(c, s.start, s.end, s.max)
      && r.unitsScale == c.unitsScale && r.durationDependent == c.durationDependent
      && r.recordData == c.recordData
      && (c.recordData ==> r.updates == Record(c.updates, Recorded(c, s)))
  {
  }

  /** Normalisation depends only on the unit configuration. */
  lemma NormaliseConfig(c: Counter, d: Counter, s: Raw)
    requires c.unitsScale == d.unitsScale && c.durationDependent == d.durationDependent
    ensures Normalise(c, s.start, s.end, s.value) == Normalise(d, s.start, s.end, s.value)
    ensures Normalise(c, s.start, s.end, s.max) == Normalise(d, s.start, s.end, s.max)
  {
  }

  /** Over any run of samples the inferred maximum does not go down and keeps
      bounding the latest reading. */
  lemma {:induction false} AppendAllKeepsBound(c: Counter, samples: seq<Raw>)
    requires Bounded(c)
    ensures var r := AppendAll(c, samples);
      && Bounded(r)
      && r.inferredMax >= c.inferredMax
      && r.unitsScale == c.unitsScale && r.durationDependent == c.durationDependent
      && r.recordData == c.recordData
    decreases |samples|
  {
    if |samples| > 0 {
      var s := samples[0];
      AppendStep(c, s);
      var c1 := AppendCounterData(c, s.start, s.end, s.max, s.value, s.reason);
      AppendAllKeepsBound(c1, samples[1..]);
    }
  }

  /** After a run of samples the reading is that of the last sample. */
  lemma {:induction false} AppendAllEndsAtLastSample(c: Counter, samples: seq<Raw>)
    requires Bounded(c) && |samples| > 0
    ensures var r := AppendAll(c, samples);
      var s := samples[|samples| - 1];
      && r.latestValue == Normalise(c, s.start, s.end, s.value)
      && r.latestMax == Normalise(c, s.start, s.end, s.max)
    decreases |samples|
  {
    var s := samples[0];
    AppendStep(c, s);
    var c1 := AppendCounterData(c, s.start, s.end, s.max, s.value, s.reason);
    if |samples| > 1 {
      AppendAllEndsAtLastSample(c1, samples[1..]);
      var last := samples[|samples| - 1];
      assert last == samples[1..][|samples[1..]| - 1];
      NormaliseConfig(c, c1, last);
    } else {
      assert AppendAll(c1, samples[1..]) == c1;
    }
  }

  /** The inferred maximum bounds every reading of a run of samples. */
  lemma {:induction false} InferredMaxBoundsRun(c: Counter, samples: seq<Raw>)
    requires Bounded(c)
    ensures var r := AppendAll(c, samples);
      forall i :: 0 <= i < |samples| ==>
        r.inferredMax >= Max(Normalise(c, samples[i].start, samples[i].end, samples[i].value),
                             Normalise(c, samples[i].start, samples[i].end, samples[i].max))
    decreases |samples|
  {
    if |samples| > 0 {
      var s := samples[0];
      AppendStep(c, s);
      var c1 := AppendCounterData(c, s.start, s.end, s.max, s.value, s.reason);
      InferredMaxBoundsRun(c1, samples[1..]);
      AppendAllKeepsBound(c1, samples[1..]);
      var r := AppendAll(c1, samples[1..]);
      forall i | 0 <= i < |samples|
        ensures r.inferredMax >= Max(Normalise(c, samples[i].start, samples[i].end, samples[i].value),
                                     Normalise(c, samples[i].start, samples[i].end, samples[i].max))
      {
        if i > 0 {
          assert samples[i] == samples[1..][i - 1];
          NormaliseConfig(c, c1, samples[i]);
        }
      }
    }
  }

  /** The most recent `MaxUpdates` entries of a sequence, oldest first. */
  function KeepRecent(xs: seq<Sample>): (r: seq<Sample>)
    ensures |r| == (if |xs| <= MaxUpdates then |xs| else MaxUpdates)
  {
    if |xs| <= MaxUpdates then xs else xs[|xs| - MaxUpdates..]
  }

  lemma RecordKeepsRecent(updates: seq<Sample>, s: Sample)
    requires |updates| <= MaxUpdates
    ensures Record(updates, s) == KeepRecent(updates + [s])
  {
  }

  lemma KeepRecentAbsorbs(a: seq<Sample>, b: seq<Sample>)
    ensures KeepRecent(KeepRecent(a) + b) == KeepRecent(a + b)
  {
    var k := if |a| <= MaxUpdates then 0 else |a| - MaxUpdates;
    assert KeepRecent(a) + b == (a + b)[k..];
  }

  /** While recording, the history holds the most recent (at most 2000)
      normalised samples, oldest first. */
  lemma {:induction false} AppendAllKeepsRecentHistory(c: Counter, samples: seq<Raw>)
    requires c.recordData && |c.updates| <= MaxUpdates && Bounded(c)
    ensures AppendAll(c, samples).updates == KeepRecent(c.updates + RecordedAll(c, samples))
    decreases |samples|
  {
    if |samples| == 0 {
      assert c.updates + RecordedAll(c, samples) == c.updates;
    } else {
      var s := samples[0];
      AppendStep(c, s);
      var c1 := AppendCounterData(c, s.start, s.end, s.max, s.value, s.reason);
      AppendAllKeepsRecentHistory(c1, samples[1..]);
      HistoryStep(c, c1, samples, AppendAll(c1, samples[1..]).updates);
    }
  }

  /** The inductive step of `AppendAllKeepsRecentHistory`, away from the
      definition of a single append. */
  lemma HistoryStep(c: Counter, c1: Counter, samples: seq<Raw>, r: seq<Sample>)
    requires |samples| > 0 && |c.updates| <= MaxUpdates
    requires c1.updates == Record(c.updates, Recorded(c, samples[0]))
    requires c1.unitsScale == c.unitsScale && c1.durationDependent == c.durationDependent
    requires r == KeepRecent(c1.updates + RecordedAll(c1, samples[1..]))
    ensures r == KeepRecent(c.updates + RecordedAll(c, samples))
  {
    RecordedAllConfig(c, c1, samples[1..]);
    RecordedAllCons(c, samples);
    HistoryAbsorb(c.updates, Recorded(c, samples[0]), RecordedAll(c, samples[1..]), c1.updates, r);
  }

  lemma RecordedAllCons(c: Counter, samples: seq<Raw>)
    requires |samples| > 0
    ensures RecordedAll(c, samples) == [Recorded(c, samples[0])] + RecordedAll(c, samples[1..])
  {
  }

  lemma HistoryAbsorb(u: seq<Sample>, x: Sample, rest: seq<Sample>, u1: seq<Sample>, r: seq<Sample>)
    requires |u| <= MaxUpdates && u1 == Record(u, x) && r == KeepRecent(u1 + rest)
    ensures r == KeepRecent(u + ([x] + rest))
  {
    RecordKeepsRecent(u, x);
    KeepRecentAbsorbs(u + [x], rest);
    assert u + [x] + rest == u + ([x] + rest);
  }

  /** Recorded tuples depend only on the counter's unit configuration. */
  lemma {:induction false} RecordedAllConfig(c: Counter, d: Counter, samples: seq<Raw>)
    requires c.unitsScale == d.unitsScale && c.durationDependent == d.durationDependent
    ensures RecordedAll(c, samples) == RecordedAll(d, samples)
    decreases |samples|
  {
    if |samples| > 0 {
      RecordedAllConfig(c, d, samples[1..]);
      assert Recorded(c, samples[0]) == Recorded(d, samples[0]);
    }
  }
}
