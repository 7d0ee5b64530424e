/**
 * What one report cycle of RulesKeeperReporter sends, as values: the
 * decomposition of each metric kind into named measurements, the naming rules,
 * the number formatting, and the list of events of a whole cycle. The reporter
 * class (module Reporter) is proved to send exactly these events, in this
 * order, up to the first exception.
 */
module Flattening {
  import opened JavaLang
  import opened Naming
  import opened Wire
  import opened Client

  /**
   * The floating-point operations the model does not compute:
   * `String.format(Locale.US, "%2.2f", v)`, the long-to-double conversion, and
   * the rate and duration conversions that ScheduledReporter performs for a
   * configured time unit.
   */
  datatype FloatOps = FloatOps(
    formatFixed2: Double -> string,
    widen: int64 -> Double,
    convertRate: (TimeUnit, Double) -> Double,
    convertDuration: (TimeUnit, Double) -> Double)

  /** The value a gauge returns, by its runtime class; `OtherValue` is anything else, null included. */
  datatype GaugeValue =
    | FloatValue(asDouble: Double)   // a Float, as its exact widening to double
    | DoubleValue(d: Double)
    | ByteValue(b: int8)
    | ShortValue(s: int16)
    | IntegerValue(i: int32)
    | LongValue(l: int64)
    | OtherValue

  /** A `Snapshot` of metrics-core 3: max and min are `long`, the others `double`. */
  datatype Snapshot = Snapshot(
    max: int64, mean: Double, min: int64, stdDev: Double, median: Double,
    p75: Double, p95: Double, p98: Double, p99: Double, p999: Double)

  datatype HistogramReading = HistogramReading(count: int64, snapshot: Snapshot)

  /** What a `Metered` (a meter, or a timer) reports: its count and its per-second rates. */
  datatype MeterReading = MeterReading(
    count: int64, oneMinuteRate: Double, fiveMinuteRate: Double, fifteenMinuteRate: Double, meanRate: Double)

  /** A timer: a snapshot of durations in nanoseconds, and its meter. */
  datatype TimerReading = TimerReading(snapshot: Snapshot, meter: MeterReading)

  /** Lexicographic order of strings, as `String.compareTo` orders them. */
  predicate Less(a: string, b: string)
    decreases |a|
  {
    if a == [] then b != []
    else b != [] && (a[0] < b[0] || (a[0] == b[0] && Less(a[1..], b[1..])))
  }

  predicate KeysAscending<V>(entries: seq<(string, V)>) {
    forall i, j :: 0 <= i < j < |entries| ==> Less(entries[i].0, entries[j].0)
  }

  /** The entries of a `SortedMap<String, V>` in iteration order. */
  type SortedMap<V> = entries: seq<(string, V)> | KeysAscending(entries) witness []

  /** The measures of a snapshot's spread, as histograms and timers send them. */
  const SpreadMeasures: seq<string> := ["max", "mean", "min", "stddev"]
  /** The measures of a snapshot's quantiles, as histograms and timers send them. */
  const QuantileMeasures: seq<string> := ["p50", "p75", "p95", "p98", "p99", "p999"]
  const HistogramMeasures: seq<string> := ["count"] + SpreadMeasures + QuantileMeasures
  const MeterMeasures: seq<string> := ["count", "m1_rate", "m5_rate", "m15_rate", "mean_rate"]
  const DurationMeasures: seq<string> := SpreadMeasures + QuantileMeasures

  /** What one cycle's events depend on besides the snapshot. */
  datatype CycleContext = CycleContext(
    provider: string,        // the client's dataProviderName
    prefix: Option<string>,  // the reporter's prefix, null by default
    rateUnit: TimeUnit,
    durationUnit: TimeUnit,
    timestamp: int64,        // the one clock reading of the cycle
    fp: FloatOps)

  /** `format(long)` */
  function FormatLong(n: int64): (s: string)
    ensures ParseDecimal(s) == Some(n as int) && '.' !in s
  {
    DecimalTextRoundTrip(n as int);
    DecimalText(n as int)
  }

  /** `format(double)` */
  function FormatDouble(fp: FloatOps, v: Double): string {
    fp.formatFixed2(v)
  }

  /** `format(Object)`: integral boxes print as integers, floating ones with two decimals, anything else is null. */
  function FormatObject(fp: FloatOps, v: GaugeValue): (r: Option<string>)
    ensures r.None? <==> v.OtherValue?
    ensures (v.FloatValue? || v.DoubleValue?) ==> r == Some(fp.formatFixed2(if v.FloatValue? then v.asDouble else v.d))
    ensures v.ByteValue? ==> r.Some? && ParseDecimal(r.value) == Some(v.b as int)
    ensures v.ShortValue? ==> r.Some? && ParseDecimal(r.value) == Some(v.s as int)
    ensures v.IntegerValue? ==> r.Some? && ParseDecimal(r.value) == Some(v.i as int)
    ensures v.LongValue? ==> r.Some? && ParseDecimal(r.value) == Some(v.l as int)
  {
    match v
    case FloatValue(f) => Some(FormatDouble(fp, f))
    case DoubleValue(d) => Some(FormatDouble(fp, d))
    case ByteValue(b) => Some(FormatLong(b as int64))
    case ShortValue(s) => Some(FormatLong(s as int64))
    case IntegerValue(i) => Some(FormatLong(i as int64))
    case LongValue(l) => Some(FormatLong(l))
    case OtherValue => None
  }

  /** `prefix(name)`: the configured prefix and the metric name, joined as `MetricRegistry.name` joins them. */
  function PrefixedName(prefix: Option<string>, name: string): (r: string)
    ensures prefix.None? ==> r == name
    ensures prefix.Some? && prefix.value != "" && name != "" ==> r == prefix.value + "." + name
    ensures prefix.Some? && prefix.value == "" ==> r == name
    ensures name == "" ==> r == if prefix.Some? then prefix.value else ""
  {
    if prefix.Some? then Append(prefix.value, name) else name
  }

  /** Under one prefix, distinct metric names get distinct keys. */
  lemma PrefixedNameInjective(prefix: Option<string>, a: string, b: string)
    requires PrefixedName(prefix, a) == PrefixedName(prefix, b)
    ensures a == b
  {
    if prefix.Some? && prefix.value != "" {
      var p := prefix.value;
      if a != "" && b != "" {
        assert a == (p + "." + a)[|p| + 1..];
        assert b == (p + "." + b)[|p| + 1..];
      }
    }
  }

  /** `prefix(name)` is `MetricRegistry.name(prefix, name)`, a null prefix included. */
  lemma PrefixedNameIsName(prefix: Option<string>, name: string)
    ensures PrefixedName(prefix, name) == Name(prefix, [name])
  {
    NameOfPair(prefix, name);
  }

  /** `format(convertRate(v))`: a rate per second converted to the rate unit, printed with two decimals. */
  function FormatRate(fp: FloatOps, unit: TimeUnit, v: Double): string {
    FormatDouble(fp, fp.convertRate(unit, v))
  }

  /** `format(convertDuration(v))`: a duration in nanoseconds converted to the duration unit, printed with two decimals. */
  function FormatDuration(fp: FloatOps, unit: TimeUnit, v: Double): string {
    FormatDouble(fp, fp.convertDuration(unit, v))
  }

  /** One `send(key, names[i], values[i], timestamp)` record per measure, in order. */
  function Children(provider: string, key: string, names: seq<string>, values: seq<string>, timestamp: int64): seq<Metric>
    requires |names| == |values|
  {
    seq(|names|, i requires 0 <= i < |names| => ChildMetric(provider, key, names[i], values[i], timestamp))
  }

  /** The texts of a histogram's spread: max and min as integers, mean and standard deviation with two decimals. */
  function HistogramSpread(s: Snapshot, fp: FloatOps): seq<string> {
    [FormatLong(s.max), FormatDouble(fp, s.mean), FormatLong(s.min), FormatDouble(fp, s.stdDev)]
  }

  /** The texts of a histogram's quantiles, with two decimals. */
  function HistogramQuantiles(s: Snapshot, fp: FloatOps): seq<string> {
    [FormatDouble(fp, s.median), FormatDouble(fp, s.p75), FormatDouble(fp, s.p95),
     FormatDouble(fp, s.p98), FormatDouble(fp, s.p99), FormatDouble(fp, s.p999)]
  }

  /** The texts `reportHistogram` sends, in the order of `HistogramMeasures`. */
  function HistogramValues(h: HistogramReading, fp: FloatOps): seq<string> {
    [FormatLong(h.count)] + HistogramSpread(h.snapshot, fp) + HistogramQuantiles(h.snapshot, fp)
  }

  /** The texts `reportMetered` sends, in the order of `MeterMeasures`. */
  function MeterValues(m: MeterReading, ctx: CycleContext): seq<string> {
    [FormatLong(m.count), FormatRate(ctx.fp, ctx.rateUnit, m.oneMinuteRate), FormatRate(ctx.fp, ctx.rateUnit, m.fiveMinuteRate),
     FormatRate(ctx.fp, ctx.rateUnit, m.fifteenMinuteRate), FormatRate(ctx.fp, ctx.rateUnit, m.meanRate)]
  }

  /** The texts of a timer's spread: each statistic converted to the duration unit, with two decimals. */
  function DurationSpread(s: Snapshot, fp: FloatOps, unit: TimeUnit): seq<string> {
    [FormatDuration(fp, unit, fp.widen(s.max)), FormatDuration(fp, unit, s.mean),
     FormatDuration(fp, unit, fp.widen(s.min)), FormatDuration(fp, unit, s.stdDev)]
  }

  /** The texts of a timer's quantiles, converted to the duration unit, with two decimals. */
  function DurationQuantiles(s: Snapshot, fp: FloatOps, unit: TimeUnit): seq<string> {
    [FormatDuration(fp, unit, s.median), FormatDuration(fp, unit, s.p75), FormatDuration(fp, unit, s.p95),
     FormatDuration(fp, unit, s.p98), FormatDuration(fp, unit, s.p99), FormatDuration(fp, unit, s.p999)]
  }

  /** The texts of the duration part of `reportTimer`, in the order of `DurationMeasures`. */
  function DurationValues(s: Snapshot, ctx: CycleContext): seq<string> {
    DurationSpread(s, ctx.fp, ctx.durationUnit) + DurationQuantiles(s, ctx.fp, ctx.durationUnit)
  }

  /** `reportGauge`: one single-metric event, or none when `format(Object)` gives null. */
  function GaugeEvents(ctx: CycleContext, name: string, v: GaugeValue): seq<Metric> {
    var key := PrefixedName(ctx.prefix, name);
    match FormatObject(ctx.fp, v)
    case None => []
    case Some(text) => [SingleMetric(ctx.provider, key, key, text, ctx.timestamp)]
  }

  /** `reportCounter` */
  function CounterEvents(ctx: CycleContext, name: string, count: int64): seq<Metric> {
    var key := PrefixedName(ctx.prefix, name);
    [SingleMetric(ctx.provider, key, key, FormatLong(count), ctx.timestamp)]
  }

  /** `reportHistogram`: the count, then the snapshot's spread, then its quantiles. */
  function HistogramEvents(ctx: CycleContext, name: string, h: HistogramReading): seq<Metric> {
    var key := PrefixedName(ctx.prefix, name);
    [ChildMetric(ctx.provider, key, "count", FormatLong(h.count), ctx.timestamp)]
    + Children(ctx.provider, key, SpreadMeasures, HistogramSpread(h.snapshot, ctx.fp), ctx.timestamp)
    + Children(ctx.provider, key, QuantileMeasures, HistogramQuantiles(h.snapshot, ctx.fp), ctx.timestamp)
  }

  /** `reportMetered`: the count and the four rates converted to the rate unit, in this order. */
  function MeterEvents(ctx: CycleContext, name: string, m: MeterReading): seq<Metric> {
    Children(ctx.provider, PrefixedName(ctx.prefix, name), MeterMeasures, MeterValues(m, ctx), ctx.timestamp)
  }

  /** The first part of `reportTimer`: the snapshot's spread and quantiles, converted to the duration unit. */
  function DurationEvents(ctx: CycleContext, name: string, s: Snapshot): seq<Metric> {
    var key := PrefixedName(ctx.prefix, name);
    Children(ctx.provider, key, SpreadMeasures, DurationSpread(s, ctx.fp, ctx.durationUnit), ctx.timestamp)
    + Children(ctx.provider, key, QuantileMeasures, DurationQuantiles(s, ctx.fp, ctx.durationUnit), ctx.timestamp)
  }

  /** `reportTimer`: the duration measures, then those of the timer's meter. */
  function TimerEvents(ctx: CycleContext, name: string, t: TimerReading): seq<Metric> {
    DurationEvents(ctx, name, t.snapshot) + MeterEvents(ctx, name, t.meter)
  }

  /** The events of a map's entries, entry after entry. */
  function Flatten<V>(entries: seq<(string, V)>, events: (string, V) -> seq<Metric>): seq<Metric>
    decreases |entries|
  {
    if entries == [] then [] else events(entries[0].0, entries[0].1) + Flatten(entries[1..], events)
  }

  function GaugeDecomposition(ctx: CycleContext): (string, GaugeValue) -> seq<Metric> {
    (name: string, v: GaugeValue) => GaugeEvents(ctx, name, v)
  }

  function CounterDecomposition(ctx: CycleContext): (string, int64) -> seq<Metric> {
    (name: string, c: int64) => CounterEvents(ctx, name, c)
  }

  function HistogramDecomposition(ctx: CycleContext): (string, HistogramReading) -> seq<Metric> {
    (name: string, h: HistogramReading) => HistogramEvents(ctx, name, h)
  }

  function MeterDecomposition(ctx: CycleContext): (string, MeterReading) -> seq<Metric> {
    (name: string, m: MeterReading) => MeterEvents(ctx, name, m)
  }

  function TimerDecomposition(ctx: CycleContext): (string, TimerReading) -> seq<Metric> {
    (name: string, t: TimerReading) => TimerEvents(ctx, name, t)
  }

  /** Every event of one `report` call, in the order the calls are made: gauges, counters, histograms, meters, timers. */
  function CycleEvents(ctx: CycleContext, gauges: SortedMap<GaugeValue>, counters: SortedMap<int64>,
                       histograms: SortedMap<HistogramReading>, meters: SortedMap<MeterReading>,
                       timers: SortedMap<TimerReading>): seq<Metric>
  {
    Flatten(gauges, GaugeDecomposition(ctx))
    + (Flatten(counters, CounterDecomposition(ctx))
       + (Flatten(histograms, HistogramDecomposition(ctx))
          + (Flatten(meters, MeterDecomposition(ctx)) + Flatten(timers, TimerDecomposition(ctx)))))
  }

  /** Flattening distributes over concatenation of the entries. */
  lemma {:induction false} FlattenConcat<V>(a: seq<(string, V)>, b: seq<(string, V)>, f: (string, V) -> seq<Metric>)
    ensures Flatten(a + b, f) == Flatten(a, f) + Flatten(b, f)
    decreases |a|
  {
    if a == [] {
      assert a + b == b;
    } else {
      assert (a + b)[0] == a[0];
      assert (a + b)[1..] == a[1..] + b;
      FlattenConcat(a[1..], b, f);
    }
  }

  /** The events of the entries from `i` on are those of entry `i`, then the later entries'. */
  lemma FlattenStep<V>(s: seq<(string, V)>, i: nat, f: (string, V) -> seq<Metric>)
    requires i < |s|
    ensures Flatten(s[i..], f) == f(s[i].0, s[i].1) + Flatten(s[i + 1..], f)
  {
    assert s[i..][1..] == s[i + 1..];
  }

  /** The records of two tables, one after the other, are the records of the joined table. */
  lemma ChildrenConcat(provider: string, key: string, names: seq<string>, values: seq<string>,
                       moreNames: seq<string>, moreValues: seq<string>, timestamp: int64)
    requires |names| == |values| && |moreNames| == |moreValues|
    ensures Children(provider, key, names + moreNames, values + moreValues, timestamp)
         == Children(provider, key, names, values, timestamp) + Children(provider, key, moreNames, moreValues, timestamp)
  {
    var whole := Children(provider, key, names + moreNames, values + moreValues, timestamp);
    var parts := Children(provider, key, names, values, timestamp) + Children(provider, key, moreNames, moreValues, timestamp);
    assert |whole| == |parts|;
    forall i | 0 <= i < |whole|
      ensures whole[i] == parts[i]
    {
      if i >= |names| {
        assert (names + moreNames)[i] == moreNames[i - |names|];
        assert (values + moreValues)[i] == moreValues[i - |names|];
      }
    }
  }

  /** The events of `reportHistogram`, read as a table: measure `i` of `HistogramMeasures` carries `HistogramValues(h)[i]`. */
  lemma HistogramEventsTable(ctx: CycleContext, name: string, h: HistogramReading)
    ensures HistogramEvents(ctx, name, h)
         == Children(ctx.provider, PrefixedName(ctx.prefix, name), HistogramMeasures, HistogramValues(h, ctx.fp), ctx.timestamp)
  {
    var key, count := PrefixedName(ctx.prefix, name), [FormatLong(h.count)];
    var spread, quantiles := HistogramSpread(h.snapshot, ctx.fp), HistogramQuantiles(h.snapshot, ctx.fp);
    assert Children(ctx.provider, key, ["count"], count, ctx.timestamp)
        == [ChildMetric(ctx.provider, key, "count", FormatLong(h.count), ctx.timestamp)];
    ChildrenConcat(ctx.provider, key, ["count"], count, SpreadMeasures, spread, ctx.timestamp);
    ChildrenConcat(ctx.provider, key, ["count"] + SpreadMeasures, count + spread, QuantileMeasures, quantiles, ctx.timestamp);
  }

  /** The events of `reportMetered`, one by one. */
  lemma MeterEventsListed(ctx: CycleContext, name: string, m: MeterReading)
    ensures var key := PrefixedName(ctx.prefix, name);
      MeterEvents(ctx, name, m)
      == [ChildMetric(ctx.provider, key, "count", FormatLong(m.count), ctx.timestamp),
          ChildMetric(ctx.provider, key, "m1_rate", FormatRate(ctx.fp, ctx.rateUnit, m.oneMinuteRate), ctx.timestamp),
          ChildMetric(ctx.provider, key, "m5_rate", FormatRate(ctx.fp, ctx.rateUnit, m.fiveMinuteRate), ctx.timestamp),
          ChildMetric(ctx.provider, key, "m15_rate", FormatRate(ctx.fp, ctx.rateUnit, m.fifteenMinuteRate), ctx.timestamp),
          ChildMetric(ctx.provider, key, "mean_rate", FormatRate(ctx.fp, ctx.rateUnit, m.meanRate), ctx.timestamp)]
  {
  }

  /** The duration events of `reportTimer`, read as a table over `DurationMeasures`. */
  lemma DurationEventsTable(ctx: CycleContext, name: string, s: Snapshot)
    ensures DurationEvents(ctx, name, s)
         == Children(ctx.provider, PrefixedName(ctx.prefix, name), DurationMeasures, DurationValues(s, ctx), ctx.timestamp)
  {
    ChildrenConcat(ctx.provider, PrefixedName(ctx.prefix, name), SpreadMeasures, DurationSpread(s, ctx.fp, ctx.durationUnit),
                   QuantileMeasures, DurationQuantiles(s, ctx.fp, ctx.durationUnit), ctx.timestamp);
  }

  /** Every event names `provider`, is dated by the clock reading `timestamp`, and counts as COUNTER. */
  ghost predicate Stamped(evs: seq<Metric>, provider: string, timestamp: int64) {
    forall i :: 0 <= i < |evs| ==>
      evs[i].dataProvider == provider && evs[i].eventDate == DecimalText(timestamp as int) && evs[i].unit == Counter
  }

  /** Every event hangs under the hierarchy key `key`. */
  ghost predicate Keyed(evs: seq<Metric>, key: string) {
    forall i :: 0 <= i < |evs| ==> evs[i].hierarchyKey == key
  }

  lemma StampedConcat(a: seq<Metric>, b: seq<Metric>, provider: string, timestamp: int64)
    requires Stamped(a, provider, timestamp) && Stamped(b, provider, timestamp)
    ensures Stamped(a + b, provider, timestamp)
  {
    forall i | 0 <= i < |a + b|
      ensures (a + b)[i].dataProvider == provider && (a + b)[i].eventDate == DecimalText(timestamp as int)
      ensures (a + b)[i].unit == Counter
    {
      if i >= |a| {
        assert (a + b)[i] == b[i - |a|];
      }
    }
  }

  lemma KeyedConcat(a: seq<Metric>, b: seq<Metric>, key: string)
    requires Keyed(a, key) && Keyed(b, key)
    ensures Keyed(a + b, key)
  {
    forall i | 0 <= i < |a + b|
      ensures (a + b)[i].hierarchyKey == key
    {
      if i >= |a| {
        assert (a + b)[i] == b[i - |a|];
      }
    }
  }

  /** The records of a table carry the provider, the timestamp and the key they were built from. */
  lemma ChildrenStamped(provider: string, key: string, names: seq<string>, values: seq<string>, timestamp: int64)
    requires |names| == |values|
    ensures Stamped(Children(provider, key, names, values, timestamp), provider, timestamp)
    ensures Keyed(Children(provider, key, names, values, timestamp), key)
  {
  }

  /** The event of a gauge, when there is one, hangs under `prefix(name)` and is stamped by the cycle. */
  lemma GaugeEventsStamped(ctx: CycleContext, name: string, v: GaugeValue)
    ensures Stamped(GaugeEvents(ctx, name, v), ctx.provider, ctx.timestamp)
    ensures Keyed(GaugeEvents(ctx, name, v), PrefixedName(ctx.prefix, name))
  {
  }

  lemma CounterEventsStamped(ctx: CycleContext, name: string, c: int64)
    ensures Stamped(CounterEvents(ctx, name, c), ctx.provider, ctx.timestamp)
    ensures Keyed(CounterEvents(ctx, name, c), PrefixedName(ctx.prefix, name))
  {
  }

  lemma HistogramEventsStamped(ctx: CycleContext, name: string, h: HistogramReading)
    ensures Stamped(HistogramEvents(ctx, name, h), ctx.provider, ctx.timestamp)
    ensures Keyed(HistogramEvents(ctx, name, h), PrefixedName(ctx.prefix, name))
  {
    HistogramEventsTable(ctx, name, h);
    ChildrenStamped(ctx.provider, PrefixedName(ctx.prefix, name), HistogramMeasures, HistogramValues(h, ctx.fp), ctx.timestamp);
  }

  lemma MeterEventsStamped(ctx: CycleContext, name: string, m: MeterReading)
    ensures Stamped(MeterEvents(ctx, name, m), ctx.provider, ctx.timestamp)
    ensures Keyed(MeterEvents(ctx, name, m), PrefixedName(ctx.prefix, name))
  {
    ChildrenStamped(ctx.provider, PrefixedName(ctx.prefix, name), MeterMeasures, MeterValues(m, ctx), ctx.timestamp);
  }

  lemma TimerEventsStamped(ctx: CycleContext, name: string, t: TimerReading)
    ensures Stamped(TimerEvents(ctx, name, t), ctx.provider, ctx.timestamp)
    ensures Keyed(TimerEvents(ctx, name, t), PrefixedName(ctx.prefix, name))
  {
    var key := PrefixedName(ctx.prefix, name);
    var durations, metered := DurationEvents(ctx, name, t.snapshot), MeterEvents(ctx, name, t.meter);
    DurationEventsTable(ctx, name, t.snapshot);
    ChildrenStamped(ctx.provider, key, DurationMeasures, DurationValues(t.snapshot, ctx), ctx.timestamp);
    MeterEventsStamped(ctx, name, t.meter);
    StampedConcat(durations, metered, ctx.provider, ctx.timestamp);
    KeyedConcat(durations, metered, key);
  }

  /** When every entry's events are stamped, so are the events of all of them. */
  lemma {:induction false} FlattenStamped<V>(entries: seq<(string, V)>, f: (string, V) -> seq<Metric>,
                                             provider: string, timestamp: int64)
    requires forall i :: 0 <= i < |entries| ==> Stamped(f(entries[i].0, entries[i].1), provider, timestamp)
    ensures Stamped(Flatten(entries, f), provider, timestamp)
    decreases |entries|
  {
    if entries != [] {
      FlattenStamped(entries[1..], f, provider, timestamp);
      StampedConcat(f(entries[0].0, entries[0].1), Flatten(entries[1..], f), provider, timestamp);
    }
  }

  /**
   * Every event of one report cycle names the client's data provider, carries
   * the one clock reading the cycle took at its start, and counts as COUNTER.
   */
  lemma CycleEventsStamped(ctx: CycleContext, gauges: SortedMap<GaugeValue>, counters: SortedMap<int64>,
                           histograms: SortedMap<HistogramReading>, meters: SortedMap<MeterReading>,
                           timers: SortedMap<TimerReading>)
    ensures Stamped(CycleEvents(ctx, gauges, counters, histograms, meters, timers), ctx.provider, ctx.timestamp)
  {
    var p, t := ctx.provider, ctx.timestamp;
    forall i | 0 <= i < |gauges| ensures Stamped(GaugeDecomposition(ctx)(gauges[i].0, gauges[i].1), p, t) {
      GaugeEventsStamped(ctx, gauges[i].0, gauges[i].1);
    }
    forall i | 0 <= i < |counters| ensures Stamped(CounterDecomposition(ctx)(counters[i].0, counters[i].1), p, t) {
      CounterEventsStamped(ctx, counters[i].0, counters[i].1);
    }
    forall i | 0 <= i < |histograms| ensures Stamped(HistogramDecomposition(ctx)(histograms[i].0, histograms[i].1), p, t) {
      HistogramEventsStamped(ctx, histograms[i].0, histograms[i].1);
    }
    forall i | 0 <= i < |meters| ensures Stamped(MeterDecomposition(ctx)(meters[i].0, meters[i].1), p, t) {
      MeterEventsStamped(ctx, meters[i].0, meters[i].1);
    }
    forall i | 0 <= i < |timers| ensures Stamped(TimerDecomposition(ctx)(timers[i].0, timers[i].1), p, t) {
      TimerEventsStamped(ctx, timers[i].0, timers[i].1);
    }
    var G := Flatten(gauges, GaugeDecomposition(ctx));
    var C := Flatten(counters, CounterDecomposition(ctx));
    var H := Flatten(histograms, HistogramDecomposition(ctx));
    var M := Flatten(meters, MeterDecomposition(ctx));
    var T := Flatten(timers, TimerDecomposition(ctx));
    FlattenStamped(gauges, GaugeDecomposition(ctx), p, t);
    FlattenStamped(counters, CounterDecomposition(ctx), p, t);
    FlattenStamped(histograms, HistogramDecomposition(ctx), p, t);
    FlattenStamped(meters, MeterDecomposition(ctx), p, t);
    FlattenStamped(timers, TimerDecomposition(ctx), p, t);
    StampedConcat(M, T, p, t);
    StampedConcat(H, M + T, p, t);
    StampedConcat(C, H + (M + T), p, t);
    StampedConcat(G, C + (H + (M + T)), p, t);
  }

  /** No string precedes itself. */
  lemma {:induction false} LessIrreflexive(a: string)
    ensures !Less(a, a)
    decreases |a|
  {
    if a != [] {
      LessIrreflexive(a[1..]);
    }
  }

  /** The keys of a sorted map are distinct. */
  lemma SortedKeysDistinct<V>(entries: SortedMap<V>, i: nat, j: nat)
    requires i < j < |entries|
    ensures entries[i].0 != entries[j].0
  {
    LessIrreflexive(entries[i].0);
  }

  /** Each decomposition puts all the events of a metric under `prefix(name)`. */
  lemma DecompositionsKeyed(ctx: CycleContext)
    ensures forall k, v :: Keyed(GaugeDecomposition(ctx)(k, v), PrefixedName(ctx.prefix, k))
    ensures forall k, v :: Keyed(CounterDecomposition(ctx)(k, v), PrefixedName(ctx.prefix, k))
    ensures forall k, v :: Keyed(HistogramDecomposition(ctx)(k, v), PrefixedName(ctx.prefix, k))
    ensures forall k, v :: Keyed(MeterDecomposition(ctx)(k, v), PrefixedName(ctx.prefix, k))
    ensures forall k, v :: Keyed(TimerDecomposition(ctx)(k, v), PrefixedName(ctx.prefix, k))
  {
    forall k, v ensures Keyed(GaugeDecomposition(ctx)(k, v), PrefixedName(ctx.prefix, k)) {
      GaugeEventsStamped(ctx, k, v);
    }
    forall k, v ensures Keyed(CounterDecomposition(ctx)(k, v), PrefixedName(ctx.prefix, k)) {
      CounterEventsStamped(ctx, k, v);
    }
    forall k, v ensures Keyed(HistogramDecomposition(ctx)(k, v), PrefixedName(ctx.prefix, k)) {
      HistogramEventsStamped(ctx, k, v);
    }
    forall k, v ensures Keyed(MeterDecomposition(ctx)(k, v), PrefixedName(ctx.prefix, k)) {
      MeterEventsStamped(ctx, k, v);
    }
    forall k, v ensures Keyed(TimerDecomposition(ctx)(k, v), PrefixedName(ctx.prefix, k)) {
      TimerEventsStamped(ctx, k, v);
    }
  }

  /**
   * Two entries of one sorted map never share a hierarchy key: every event of
   * entry `i` hangs under a different key than every event of entry `j`, so the
   * server sees each metric of a kind under a key of its own.
   */
  lemma DistinctEntriesKeyedApart<V>(entries: SortedMap<V>, f: (string, V) -> seq<Metric>, prefix: Option<string>,
                                     i: nat, j: nat)
    requires forall k, v :: Keyed(f(k, v), PrefixedName(prefix, k))
    requires i < j < |entries|
    ensures forall x, y :: 0 <= x < |f(entries[i].0, entries[i].1)| && 0 <= y < |f(entries[j].0, entries[j].1)| ==>
              f(entries[i].0, entries[i].1)[x].hierarchyKey != f(entries[j].0, entries[j].1)[y].hierarchyKey
  {
    var a, b := entries[i], entries[j];
    SortedKeysDistinct(entries, i, j);
    if PrefixedName(prefix, a.0) == PrefixedName(prefix, b.0) {
      PrefixedNameInjective(prefix, a.0, b.0);
    }
    assert Keyed(f(a.0, a.1), PrefixedName(prefix, a.0));
    assert Keyed(f(b.0, b.1), PrefixedName(prefix, b.0));
  }
}
