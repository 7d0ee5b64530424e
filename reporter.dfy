/**
 * RulesKeeperReporter and its Builder. One call of `Report` reads the clock
 * once (the parameter `now`), then walks the five sorted maps and sends every
 * measurement through the RulesKeeper client; the first exception ends the
 * cycle. The events it sends are those `Flattening.CycleEvents` lists.
 */
module Reporter {
  import opened JavaLang
  import opened Wire
  import opened Client
  import opened Flattening

  /** The registry a reporter is built for; its contents reach the model as the snapshot `Report` receives. */
  class MetricRegistry {
    constructor () {}
  }

  /** `Clock.defaultClock()` or a clock the caller supplies. */
  datatype Clock = DefaultClock | GivenClock(id: nat)

  /** `MetricFilter.ALL` or a filter the caller supplies. */
  datatype MetricFilter = AllMetrics | GivenFilter(id: nat)

  /**
   * The catch clauses of `report`: IllegalArgumentException, IOException,
   * InterruptedException and ExecutionException are logged and `report`
   * returns normally; any other runtime exception leaves it.
   */
  function Caught(r: Outcome): (c: Outcome)
    ensures c.Raised? <==> r == Raised(Unchecked)
    ensures c.Raised? ==> c == r
  {
    if r.Raised? && r.fault != Unchecked then Returned else r
  }

  /** `RulesKeeperReporter.forRegistry(registry)` */
  method ForRegistry(registry: MetricRegistry) returns (b: Builder)
    ensures fresh(b) && b.registry == registry
    ensures b.clock == DefaultClock && b.prefix == None && b.rateUnit == Seconds
    ensures b.durationUnit == Milliseconds && b.filter == AllMetrics
  {
    b := new Builder(registry);
  }

  class Builder {
    const registry: MetricRegistry
    var clock: Clock
    var prefix: Option<string>
    var rateUnit: TimeUnit
    var durationUnit: TimeUnit
    var filter: MetricFilter

    /** No prefix, the default clock, rates per second, durations in milliseconds, no filtering. */
    constructor (registry: MetricRegistry)
      ensures this.registry == registry
      ensures clock == DefaultClock && prefix == None && rateUnit == Seconds
      ensures durationUnit == Milliseconds && filter == AllMetrics
    {
      this.registry := registry;
      clock := DefaultClock;
      prefix := None;
      rateUnit := Seconds;
      durationUnit := Milliseconds;
      filter := AllMetrics;
    }

    method WithClock(clock: Clock) returns (b: Builder)
      modifies this
      ensures b == this && this.clock == clock
      ensures prefix == old(prefix) && rateUnit == old(rateUnit)
      ensures durationUnit == old(durationUnit) && filter == old(filter)
    {
      this.clock := clock;
      b := this;
    }

    method PrefixedWith(prefix: Option<string>) returns (b: Builder)
      modifies this
      ensures b == this && this.prefix == prefix
      ensures clock == old(clock) && rateUnit == old(rateUnit)
      ensures durationUnit == old(durationUnit) && filter == old(filter)
    {
      this.prefix := prefix;
      b := this;
    }

    method ConvertRatesTo(rateUnit: TimeUnit) returns (b: Builder)
      modifies this
      ensures b == this && this.rateUnit == rateUnit
      ensures clock == old(clock) && prefix == old(prefix)
      ensures durationUnit == old(durationUnit) && filter == old(filter)
    {
      this.rateUnit := rateUnit;
      b := this;
    }

    method ConvertDurationsTo(durationUnit: TimeUnit) returns (b: Builder)
      modifies this
      ensures b == this && this.durationUnit == durationUnit
      ensures clock == old(clock) && prefix == old(prefix)
      ensures rateUnit == old(rateUnit) && filter == old(filter)
    {
      this.durationUnit := durationUnit;
      b := this;
    }

    method Filter(filter: MetricFilter) returns (b: Builder)
      modifies this
      ensures b == this && this.filter == filter
      ensures clock == old(clock) && prefix == old(prefix)
      ensures rateUnit == old(rateUnit) && durationUnit == old(durationUnit)
    {
      this.filter := filter;
      b := this;
    }

    /** A reporter with this builder's settings, sending through `ruleskeeper`. */
    method Build(ruleskeeper: RulesKeeper) returns (r: RulesKeeperReporter)
      ensures fresh(r) && r.registry == registry && r.ruleskeeper == ruleskeeper
      ensures r.clock == clock && r.prefix == prefix && r.rateUnit == rateUnit
      ensures r.durationUnit == durationUnit && r.filter == filter
    {
      r := new RulesKeeperReporter(registry, ruleskeeper, clock, prefix, rateUnit, durationUnit, filter);
    }
  }

  class RulesKeeperReporter {
    const registry: MetricRegistry
    const ruleskeeper: RulesKeeper
    const clock: Clock
    const prefix: Option<string>
    const rateUnit: TimeUnit
    const durationUnit: TimeUnit
    const filter: MetricFilter

    constructor (registry: MetricRegistry, ruleskeeper: RulesKeeper, clock: Clock, prefix: Option<string>,
                 rateUnit: TimeUnit, durationUnit: TimeUnit, filter: MetricFilter)
      ensures this.registry == registry && this.ruleskeeper == ruleskeeper && this.clock == clock
      ensures this.prefix == prefix && this.rateUnit == rateUnit && this.durationUnit == durationUnit
      ensures this.filter == filter
    {
      this.registry := registry;
      this.ruleskeeper := ruleskeeper;
      this.clock := clock;
      this.prefix := prefix;
      this.rateUnit := rateUnit;
      this.durationUnit := durationUnit;
      this.filter := filter;
    }

    /** The settings one cycle stamped `timestamp` works with. */
    function Context(timestamp: int64, fp: FloatOps): CycleContext {
      CycleContext(ruleskeeper.dataProviderName, prefix, rateUnit, durationUnit, timestamp, fp)
    }

    /**
     * One report cycle. `now` is what `clock.getTime()` returns at its start.
     * The cycle's events are sent in order until one raises: the log gains
     * exactly the events before it, and an exception of the four kinds `report`
     * catches ends the call normally.
     */
    method Report(gauges: SortedMap<GaugeValue>, counters: SortedMap<int64>,
                  histograms: SortedMap<HistogramReading>, meters: SortedMap<MeterReading>,
                  timers: SortedMap<TimerReading>, now: int64, fp: FloatOps) returns (c: Outcome)
      modifies ruleskeeper
      ensures var evs := CycleEvents(Context(now, fp), gauges, counters, histograms, meters, timers);
        && ruleskeeper.log == old(ruleskeeper.log)
                              + Posts(ruleskeeper.Target(), Delivered(ruleskeeper.network, old(ruleskeeper.attempts), evs))
        && ruleskeeper.attempts == old(ruleskeeper.attempts) + Used(ruleskeeper.network, old(ruleskeeper.attempts), evs)
        && c == Caught(Result(ruleskeeper.network, old(ruleskeeper.attempts), evs))
    {
      var timestamp := now;
      ghost var ctx := Context(timestamp, fp);
      ghost var net, target := ruleskeeper.network, ruleskeeper.Target();
      ghost var a0, log0 := ruleskeeper.attempts, ruleskeeper.log;
      ghost var G := Flatten(gauges, GaugeDecomposition(ctx));
      ghost var C := Flatten(counters, CounterDecomposition(ctx));
      ghost var H := Flatten(histograms, HistogramDecomposition(ctx));
      ghost var M := Flatten(meters, MeterDecomposition(ctx));
      ghost var T := Flatten(timers, TimerDecomposition(ctx));
      ghost var evs := CycleEvents(ctx, gauges, counters, histograms, meters, timers);
      RunMatchesFirstFault(net, target, a0, log0, evs);

      RunConcat(net, target, ruleskeeper.attempts, ruleskeeper.log, G, C + (H + (M + T)));
      var rGauge := ReportGauges(gauges, timestamp, fp);
      if rGauge.Raised? {
        c := Caught(rGauge);
        return;
      }

      RunConcat(net, target, ruleskeeper.attempts, ruleskeeper.log, C, H + (M + T));
      var rCounter := ReportCounters(counters, timestamp, fp);
      if rCounter.Raised? {
        c := Caught(rCounter);
        return;
      }

      RunConcat(net, target, ruleskeeper.attempts, ruleskeeper.log, H, M + T);
      var rHistogram := ReportHistograms(histograms, timestamp, fp);
      if rHistogram.Raised? {
        c := Caught(rHistogram);
        return;
      }

      RunConcat(net, target, ruleskeeper.attempts, ruleskeeper.log, M, T);
      var rMeter := ReportMeters(meters, timestamp, fp);
      if rMeter.Raised? {
        c := Caught(rMeter);
        return;
      }

      var rTimer := ReportTimers(timers, timestamp, fp);
      c := Caught(rTimer);
    }

    /** The loop of `report` over the gauges: one `reportGauge` per entry, in key order, until one raises. */
    method ReportGauges(gauges: SortedMap<GaugeValue>, timestamp: int64, fp: FloatOps) returns (r: Outcome)
      modifies ruleskeeper
      ensures Sending(ruleskeeper.attempts, ruleskeeper.log, r)
           == Run(ruleskeeper.network, ruleskeeper.Target(), old(ruleskeeper.attempts), old(ruleskeeper.log),
                  Flatten(gauges, GaugeDecomposition(Context(timestamp, fp))), 0)
    {
      ghost var ctx := Context(timestamp, fp);
      ghost var net, target := ruleskeeper.network, ruleskeeper.Target();
      ghost var a0, log0 := ruleskeeper.attempts, ruleskeeper.log;
      assert gauges[0..] == gauges;
      var i := 0;
      while i < |gauges|
        invariant 0 <= i <= |gauges|
        invariant Run(net, target, a0, log0, Flatten(gauges, GaugeDecomposition(ctx)), 0)
               == Run(net, target, ruleskeeper.attempts, ruleskeeper.log, Flatten(gauges[i..], GaugeDecomposition(ctx)), 0)
      {
        var entry := gauges[i];
        FlattenStep(gauges, i, GaugeDecomposition(ctx));
        RunConcat(net, target, ruleskeeper.attempts, ruleskeeper.log,
                  GaugeEvents(ctx, entry.0, entry.1), Flatten(gauges[i + 1..], GaugeDecomposition(ctx)));
        r := ReportGauge(entry.0, entry.1, timestamp, fp);
        if r.Raised? {
          return;
        }
        i := i + 1;
      }
      assert gauges[i..] == [];
      r := Returned;
    }

    /** The loop of `report` over the counters: one `reportCounter` per entry, in key order, until one raises. */
    method ReportCounters(counters: SortedMap<int64>, timestamp: int64, fp: FloatOps) returns (r: Outcome)
      modifies ruleskeeper
      ensures Sending(ruleskeeper.attempts, ruleskeeper.log, r)
           == Run(ruleskeeper.network, ruleskeeper.Target(), old(ruleskeeper.attempts), old(ruleskeeper.log),
                  Flatten(counters, CounterDecomposition(Context(timestamp, fp))), 0)
    {
      ghost var ctx := Context(timestamp, fp);
      ghost var net, target := ruleskeeper.network, ruleskeeper.Target();
      ghost var a0, log0 := ruleskeeper.attempts, ruleskeeper.log;
      assert counters[0..] == counters;
      var i := 0;
      while i < |counters|
        invariant 0 <= i <= |counters|
        invariant Run(net, target, a0, log0, Flatten(counters, CounterDecomposition(ctx)), 0)
               == Run(net, target, ruleskeeper.attempts, ruleskeeper.log, Flatten(counters[i..], CounterDecomposition(ctx)), 0)
      {
        var entry := counters[i];
        FlattenStep(counters, i, CounterDecomposition(ctx));
        RunConcat(net, target, ruleskeeper.attempts, ruleskeeper.log,
                  CounterEvents(ctx, entry.0, entry.1), Flatten(counters[i + 1..], CounterDecomposition(ctx)));
        r := ReportCounter(entry.0, entry.1, timestamp, fp);
        if r.Raised? {
          return;
        }
        i := i + 1;
      }
      assert counters[i..] == [];
      r := Returned;
    }

    /** The loop of `report` over the histograms: one `reportHistogram` per entry, in key order, until one raises. */
    method ReportHistograms(histograms: SortedMap<HistogramReading>, timestamp: int64, fp: FloatOps) returns (r: Outcome)
      modifies ruleskeeper
      ensures Sending(ruleskeeper.attempts, ruleskeeper.log, r)
           == Run(ruleskeeper.network, ruleskeeper.Target(), old(ruleskeeper.attempts), old(ruleskeeper.log),
                  Flatten(histograms, HistogramDecomposition(Context(timestamp, fp))), 0)
    {
      ghost var ctx := Context(timestamp, fp);
      ghost var net, target := ruleskeeper.network, ruleskeeper.Target();
      ghost var a0, log0 := ruleskeeper.attempts, ruleskeeper.log;
      assert histograms[0..] == histograms;
      var i := 0;
      while i < |histograms|
        invariant 0 <= i <= |histograms|
        invariant Run(net, target, a0, log0, Flatten(histograms, HistogramDecomposition(ctx)), 0)
               == Run(net, target, ruleskeeper.attempts, ruleskeeper.log, Flatten(histograms[i..], HistogramDecomposition(ctx)), 0)
      {
        var entry := histograms[i];
        FlattenStep(histograms, i, HistogramDecomposition(ctx));
        RunConcat(net, target, ruleskeeper.attempts, ruleskeeper.log,
                  HistogramEvents(ctx, entry.0, entry.1), Flatten(histograms[i + 1..], HistogramDecomposition(ctx)));
        r := ReportHistogram(entry.0, entry.1, timestamp, fp);
        if r.Raised? {
          return;
        }
        i := i + 1;
      }
      assert histograms[i..] == [];
      r := Returned;
    }

    /** The loop of `report` over the meters: one `reportMetered` per entry, in key order, until one raises. */
    method ReportMeters(meters: SortedMap<MeterReading>, timestamp: int64, fp: FloatOps) returns (r: Outcome)
      modifies ruleskeeper
      ensures Sending(ruleskeeper.attempts, ruleskeeper.log, r)
           == Run(ruleskeeper.network, ruleskeeper.Target(), old(ruleskeeper.attempts), old(ruleskeeper.log),
                  Flatten(meters, MeterDecomposition(Context(timestamp, fp))), 0)
    {
      ghost var ctx := Context(timestamp, fp);
      ghost var net, target := ruleskeeper.network, ruleskeeper.Target();
      ghost var a0, log0 := ruleskeeper.attempts, ruleskeeper.log;
      assert meters[0..] == meters;
      var i := 0;
      while i < |meters|
        invariant 0 <= i <= |meters|
        invariant Run(net, target, a0, log0, Flatten(meters, MeterDecomposition(ctx)), 0)
               == Run(net, target, ruleskeeper.attempts, ruleskeeper.log, Flatten(meters[i..], MeterDecomposition(ctx)), 0)
      {
        var entry := meters[i];
        FlattenStep(meters, i, MeterDecomposition(ctx));
        RunConcat(net, target, ruleskeeper.attempts, ruleskeeper.log,
                  MeterEvents(ctx, entry.0, entry.1), Flatten(meters[i + 1..], MeterDecomposition(ctx)));
        r := ReportMetered(entry.0, entry.1, timestamp, fp);
        if r.Raised? {
          return;
        }
        i := i + 1;
      }
      assert meters[i..] == [];
      r := Returned;
    }

    /** The loop of `report` over the timers: one `reportTimer` per entry, in key order, until one raises. */
    method ReportTimers(timers: SortedMap<TimerReading>, timestamp: int64, fp: FloatOps) returns (r: Outcome)
      modifies ruleskeeper
      ensures Sending(ruleskeeper.attempts, ruleskeeper.log, r)
           == Run(ruleskeeper.network, ruleskeeper.Target(), old(ruleskeeper.attempts), old(ruleskeeper.log),
                  Flatten(timers, TimerDecomposition(Context(timestamp, fp))), 0)
    {
      ghost var ctx := Context(timestamp, fp);
      ghost var net, target := ruleskeeper.network, ruleskeeper.Target();
      ghost var a0, log0 := ruleskeeper.attempts, ruleskeeper.log;
      assert timers[0..] == timers;
      var i := 0;
      while i < |timers|
        invariant 0 <= i <= |timers|
        invariant Run(net, target, a0, log0, Flatten(timers, TimerDecomposition(ctx)), 0)
               == Run(net, target, ruleskeeper.attempts, ruleskeeper.log, Flatten(timers[i..], TimerDecomposition(ctx)), 0)
      {
        var entry := timers[i];
        FlattenStep(timers, i, TimerDecomposition(ctx));
        RunConcat(net, target, ruleskeeper.attempts, ruleskeeper.log,
                  TimerEvents(ctx, entry.0, entry.1), Flatten(timers[i + 1..], TimerDecomposition(ctx)));
        r := ReportTimer(entry.0, entry.1, timestamp, fp);
        if r.Raised? {
          return;
        }
        i := i + 1;
      }
      assert timers[i..] == [];
      r := Returned;
    }

    /** `reportGauge`: a gauge whose value `format(Object)` cannot print sends nothing and raises nothing. */
    method ReportGauge(name: string, gauge: GaugeValue, timestamp: int64, fp: FloatOps) returns (r: Outcome)
      modifies ruleskeeper
      ensures Sending(ruleskeeper.attempts, ruleskeeper.log, r)
           == Run(ruleskeeper.network, ruleskeeper.Target(), old(ruleskeeper.attempts), old(ruleskeeper.log),
                  GaugeEvents(Context(timestamp, fp), name, gauge), 0)
    {
      var value := FormatObject(fp, gauge);
      if value.Some? {
        var key := PrefixedName(prefix, name);
        r := ruleskeeper.SendSingleMetric(key, key, value.value, timestamp);
        SentOneRun(ruleskeeper.network, ruleskeeper.Target(), old(ruleskeeper.attempts), old(ruleskeeper.log),
                   SingleMetric(ruleskeeper.dataProviderName, key, key, value.value, timestamp),
                   ruleskeeper.attempts, ruleskeeper.log, r);
      } else {
        r := Returned;
      }
    }

    /** `reportCounter` */
    method ReportCounter(name: string, count: int64, timestamp: int64, fp: FloatOps) returns (r: Outcome)
      modifies ruleskeeper
      ensures Sending(ruleskeeper.attempts, ruleskeeper.log, r)
           == Run(ruleskeeper.network, ruleskeeper.Target(), old(ruleskeeper.attempts), old(ruleskeeper.log),
                  CounterEvents(Context(timestamp, fp), name, count), 0)
    {
      var key := PrefixedName(prefix, name);
      r := ruleskeeper.SendSingleMetric(key, key, FormatLong(count), timestamp);
      SentOneRun(ruleskeeper.network, ruleskeeper.Target(), old(ruleskeeper.attempts), old(ruleskeeper.log),
                 SingleMetric(ruleskeeper.dataProviderName, key, key, FormatLong(count), timestamp),
                 ruleskeeper.attempts, ruleskeeper.log, r);
    }

    /**
     * The call `ruleskeeper.send(key, measures[j], values[j], timestamp)` made
     * as event `j` of the children of `key` with these measures and values,
     * whose run started from `attempts0` requests and the log `log0` and has
     * reached event `j`: the run either ends here with the exception, or has
     * reached event `j + 1`.
     */
    method SendEvent(key: string, measures: seq<string>, values: seq<string>, j: nat, timestamp: int64,
                     ghost attempts0: nat, ghost log0: seq<Post>) returns (r: Outcome)
      requires |measures| == |values| && j < |values|
      requires Run(ruleskeeper.network, ruleskeeper.Target(), attempts0, log0,
                   Children(ruleskeeper.dataProviderName, key, measures, values, timestamp), 0)
            == Run(ruleskeeper.network, ruleskeeper.Target(), ruleskeeper.attempts, ruleskeeper.log,
                   Children(ruleskeeper.dataProviderName, key, measures, values, timestamp), j)
      modifies ruleskeeper
      ensures r.Raised? ==>
        Run(ruleskeeper.network, ruleskeeper.Target(), attempts0, log0,
            Children(ruleskeeper.dataProviderName, key, measures, values, timestamp), 0)
        == Sending(ruleskeeper.attempts, ruleskeeper.log, r)
      ensures r.Returned? ==>
        Run(ruleskeeper.network, ruleskeeper.Target(), attempts0, log0,
            Children(ruleskeeper.dataProviderName, key, measures, values, timestamp), 0)
        == Run(ruleskeeper.network, ruleskeeper.Target(), ruleskeeper.attempts, ruleskeeper.log,
               Children(ruleskeeper.dataProviderName, key, measures, values, timestamp), j + 1)
    {
      ghost var evs := Children(ruleskeeper.dataProviderName, key, measures, values, timestamp);
      r := ruleskeeper.Send(key, measures[j], values[j], timestamp);
      RunStepsThroughSend(ruleskeeper.network, ruleskeeper.Target(), attempts0, log0, evs, j, old(ruleskeeper.attempts), old(ruleskeeper.log),
           evs[j], ruleskeeper.attempts, ruleskeeper.log, r);
    }

    /**
     * The sends of a snapshot's spread, as `reportHistogram` and `reportTimer`
     * both make them: max, mean, min and standard deviation
     * (`SpreadMeasures`), stopping at the first that raises.
     */
    method SendSpread(key: string, max: string, mean: string, min: string, stdDev: string, timestamp: int64) returns (r: Outcome)
      modifies ruleskeeper
      ensures Sending(ruleskeeper.attempts, ruleskeeper.log, r)
           == Run(ruleskeeper.network, ruleskeeper.Target(), old(ruleskeeper.attempts), old(ruleskeeper.log),
                  Children(ruleskeeper.dataProviderName, key, SpreadMeasures, [max, mean, min, stdDev], timestamp), 0)
    {
      ghost var attempts0, log0 := ruleskeeper.attempts, ruleskeeper.log;
      var values := [max, mean, min, stdDev];
      r := SendEvent(key, SpreadMeasures, values, 0, timestamp, attempts0, log0);
      if r.Raised? { return; }
      r := SendEvent(key, SpreadMeasures, values, 1, timestamp, attempts0, log0);
      if r.Raised? { return; }
      r := SendEvent(key, SpreadMeasures, values, 2, timestamp, attempts0, log0);
      if r.Raised? { return; }
      r := SendEvent(key, SpreadMeasures, values, 3, timestamp, attempts0, log0);
      if r.Raised? { return; }
    }

    /**
     * The sends of a snapshot's quantiles, as `reportHistogram` and
     * `reportTimer` both make them: the median, then the 75th, 95th, 98th, 99th
     * and 99.9th percentiles (`QuantileMeasures`), stopping at the first that
     * raises.
     */
    method SendQuantiles(key: string, p50: string, p75: string, p95: string, p98: string, p99: string, p999: string,
                         timestamp: int64) returns (r: Outcome)
      modifies ruleskeeper
      ensures Sending(ruleskeeper.attempts, ruleskeeper.log, r)
           == Run(ruleskeeper.network, ruleskeeper.Target(), old(ruleskeeper.attempts), old(ruleskeeper.log),
                  Children(ruleskeeper.dataProviderName, key, QuantileMeasures, [p50, p75, p95, p98, p99, p999], timestamp), 0)
    {
      ghost var attempts0, log0 := ruleskeeper.attempts, ruleskeeper.log;
      var values := [p50, p75, p95, p98, p99, p999];
      r := SendEvent(key, QuantileMeasures, values, 0, timestamp, attempts0, log0);
      if r.Raised? { return; }
      r := SendEvent(key, QuantileMeasures, values, 1, timestamp, attempts0, log0);
      if r.Raised? { return; }
      r := SendEvent(key, QuantileMeasures, values, 2, timestamp, attempts0, log0);
      if r.Raised? { return; }
      r := SendEvent(key, QuantileMeasures, values, 3, timestamp, attempts0, log0);
      if r.Raised? { return; }
      r := SendEvent(key, QuantileMeasures, values, 4, timestamp, attempts0, log0);
      if r.Raised? { return; }
      r := SendEvent(key, QuantileMeasures, values, 5, timestamp, attempts0, log0);
      if r.Raised? { return; }
    }

    /** `reportHistogram`: eleven sends, stopping at the first that raises. */
    method ReportHistogram(name: string, histogram: HistogramReading, timestamp: int64, fp: FloatOps) returns (r: Outcome)
      modifies ruleskeeper
      ensures Sending(ruleskeeper.attempts, ruleskeeper.log, r)
           == Run(ruleskeeper.network, ruleskeeper.Target(), old(ruleskeeper.attempts), old(ruleskeeper.log),
                  HistogramEvents(Context(timestamp, fp), name, histogram), 0)
    {
      ghost var net, target := ruleskeeper.network, ruleskeeper.Target();
      ghost var attempts0, log0 := ruleskeeper.attempts, ruleskeeper.log;
      var snapshot := histogram.snapshot;
      var key := PrefixedName(prefix, name);
      ghost var provider := ruleskeeper.dataProviderName;
      ghost var count := ChildMetric(provider, key, "count", FormatLong(histogram.count), timestamp);
      ghost var spread := Children(provider, key, SpreadMeasures, HistogramSpread(snapshot, fp), timestamp);
      ghost var quantiles := Children(provider, key, QuantileMeasures, HistogramQuantiles(snapshot, fp), timestamp);
      assert HistogramEvents(Context(timestamp, fp), name, histogram) == [count] + (spread + quantiles);
      RunConcat(net, target, attempts0, log0, [count], spread + quantiles);

      r := ruleskeeper.Send(key, "count", FormatLong(histogram.count), timestamp);
      SentOneRun(net, target, attempts0, log0, count, ruleskeeper.attempts, ruleskeeper.log, r);
      if r.Raised? { return; }
      label spread:
      r := SendSpread(key, FormatLong(snapshot.max), FormatDouble(fp, snapshot.mean), FormatLong(snapshot.min),
                      FormatDouble(fp, snapshot.stdDev), timestamp);
      RunConcat(net, target, old@spread(ruleskeeper.attempts), old@spread(ruleskeeper.log), spread, quantiles);
      if r.Raised? { return; }
      r := SendQuantiles(key, FormatDouble(fp, snapshot.median), FormatDouble(fp, snapshot.p75), FormatDouble(fp, snapshot.p95),
                         FormatDouble(fp, snapshot.p98), FormatDouble(fp, snapshot.p99), FormatDouble(fp, snapshot.p999),
                         timestamp);
    }

    /** `reportMetered`: five sends (`MeterMeasures`), stopping at the first that raises. */
    method ReportMetered(name: string, meter: MeterReading, timestamp: int64, fp: FloatOps) returns (r: Outcome)
      modifies ruleskeeper
      ensures Sending(ruleskeeper.attempts, ruleskeeper.log, r)
           == Run(ruleskeeper.network, ruleskeeper.Target(), old(ruleskeeper.attempts), old(ruleskeeper.log),
                  MeterEvents(Context(timestamp, fp), name, meter), 0)
    {
      ghost var attempts0, log0 := ruleskeeper.attempts, ruleskeeper.log;
      var key := PrefixedName(prefix, name);
      var values := MeterValues(meter, Context(timestamp, fp));
      r := SendEvent(key, MeterMeasures, values, 0, timestamp, attempts0, log0);
      if r.Raised? { return; }
      r := SendEvent(key, MeterMeasures, values, 1, timestamp, attempts0, log0);
      if r.Raised? { return; }
      r := SendEvent(key, MeterMeasures, values, 2, timestamp, attempts0, log0);
      if r.Raised? { return; }
      r := SendEvent(key, MeterMeasures, values, 3, timestamp, attempts0, log0);
      if r.Raised? { return; }
      r := SendEvent(key, MeterMeasures, values, 4, timestamp, attempts0, log0);
      if r.Raised? { return; }
    }

    /** `reportTimer`: ten duration sends, then `reportMetered` for the timer's meter. */
    method ReportTimer(name: string, timer: TimerReading, timestamp: int64, fp: FloatOps) returns (r: Outcome)
      modifies ruleskeeper
      ensures Sending(ruleskeeper.attempts, ruleskeeper.log, r)
           == Run(ruleskeeper.network, ruleskeeper.Target(), old(ruleskeeper.attempts), old(ruleskeeper.log),
                  TimerEvents(Context(timestamp, fp), name, timer), 0)
    {
      ghost var net, target := ruleskeeper.network, ruleskeeper.Target();
      ghost var attempts0, log0 := ruleskeeper.attempts, ruleskeeper.log;
      var snapshot := timer.snapshot;
      var key := PrefixedName(prefix, name);
      ghost var provider := ruleskeeper.dataProviderName;
      ghost var spread := Children(provider, key, SpreadMeasures, DurationSpread(snapshot, fp, durationUnit), timestamp);
      ghost var quantiles := Children(provider, key, QuantileMeasures, DurationQuantiles(snapshot, fp, durationUnit), timestamp);
      ghost var metered := MeterEvents(Context(timestamp, fp), name, timer.meter);
      assert TimerEvents(Context(timestamp, fp), name, timer) == spread + (quantiles + metered);
      RunConcat(net, target, attempts0, log0, spread, quantiles + metered);

      r := SendSpread(key, FormatDuration(fp, durationUnit, fp.widen(snapshot.max)), FormatDuration(fp, durationUnit, snapshot.mean),
                      FormatDuration(fp, durationUnit, fp.widen(snapshot.min)), FormatDuration(fp, durationUnit, snapshot.stdDev),
                      timestamp);
      if r.Raised? { return; }
      label quantiles:
      r := SendQuantiles(key, FormatDuration(fp, durationUnit, snapshot.median), FormatDuration(fp, durationUnit, snapshot.p75),
                         FormatDuration(fp, durationUnit, snapshot.p95), FormatDuration(fp, durationUnit, snapshot.p98),
                         FormatDuration(fp, durationUnit, snapshot.p99), FormatDuration(fp, durationUnit, snapshot.p999),
                         timestamp);
      RunConcat(net, target, old@quantiles(ruleskeeper.attempts), old@quantiles(ruleskeeper.log), quantiles, metered);
      if r.Raised? { return; }
      r := ReportMetered(name, timer.meter, timestamp, fp);
    }
  }
}
