# RulesKeeper reporter for Dropwizard Metrics, modelled in Dafny

This project models the core of the RulesKeeper reporter for Dropwizard
Metrics. The core has two parts:

- `RulesKeeperReporter` is a scheduled reporter. On each cycle it reads the
  clock once. It then walks the sorted maps of gauges, counters, histograms,
  meters and timers in that order and splits each metric into named
  measurements. Numbers become text with `format`, and names are built with
  `prefix`.
- The `RulesKeeper` client turns each measurement into a `Metric` record
  (data provider, hierarchy key, technical key, short name, event date, unit,
  value). It posts the record to `<url>api/metrics/save` and checks the HTTP
  status against a fixed allow-list.

The project is organised by module:

- `java_lang.dfy` (`JavaLang`) covers the Java pieces the core relies on.
  These are nullable references, the fixed-width integer types, `double` as
  an opaque bit pattern, `TimeUnit`, and the decimal text of `Long.toString`
  and `String.valueOf(long)`, which is proved to read back as its number.
- `naming.dfy` (`Naming`) defines `MetricRegistry.name`: null and empty parts
  are skipped and the rest are joined with '.'. The builder loop is proved
  equal to "join the present parts".
- `wire.dfy` (`Wire`) holds the seven-field `Metric` record. Its unit is COUNTER or another value of the schema's enum, which is kept by number.
- `client.dfy` (`Client`) covers the `RulesKeeper` class:
  - its constructors, the status allow-list and `sanitize`;
  - the two record builders;
  - `sendMetricToServer`, `sendSingleMetric` and `send`, as methods on a class whose state is the number of requests issued and the log of answered POSTs.

  The network is a fixed function from request number to answer: an HTTP
  status or an exception. The module also gives `Run`, the reference
  semantics of "send these events one after another until the first
  exception". `Run` is proved equal to a first-failure description: the log
  gains exactly the events before the first failure, and its exception is the
  outcome.
- `flattening.dfy` (`Flattening`) lists, as values, the events one cycle
  sends:
  - `format` for `Object`, `long` and `double`, and `prefix`;
  - the events of each metric kind and of a whole cycle.

  Its lemmas state the tables of measures and values, and that every event of
  a cycle carries the provider, the one clock reading and the COUNTER unit.
- `reporter.dfy` (`Reporter`) holds the `Builder` and `RulesKeeperReporter`
  classes. `Report` and its `report*` helpers are proved to send exactly the
  events `CycleEvents` lists, in order, up to the first exception. They are
  also proved to end as the catch clauses of `report` say.

Where the code and its written description differ, the model follows the
code:

- A gauge or counter record carries `prefix(name)` as its short name, because
  `sendSingleMetric` receives `prefix(name)` for both keys. It is not the bare
  metric name.
- `report` catches only `IllegalArgumentException`, `IOException`,
  `InterruptedException` and `ExecutionException`. Any other runtime
  exception leaves `report`. The model keeps it as the `Unchecked` fault.
- A histogram's max and min are `long` in the `Snapshot` of metrics-core 3,
  so `reportHistogram` prints them with `format(long)`. `reportTimer` widens
  them to `double` before the duration conversion.

## Model

| member | source | states |
|---|---|---|
| `JavaLang.DecimalText` | src/main/java/com/codahale/metrics/ruleskeeper/RulesKeeperReporter.java:263-265 | `Long.toString(n)`: non-empty, and contains no '.' |
| `JavaLang.NaturalText` | src/main/java/com/codahale/metrics/ruleskeeper/RulesKeeperReporter.java:263-265 | the digits of a natural number: at least one digit, all digits, and no leading zero unless the number is 0 |
| `JavaLang.DecimalTextRoundTrip` | src/main/java/com/codahale/metrics/ruleskeeper/RulesKeeper.java:69 | the event date `String.valueOf(timestamp)` parses back to exactly the timestamp, negative values included |
| `JavaLang.DecimalTextInjective` | src/main/java/com/codahale/metrics/ruleskeeper/RulesKeeperReporter.java:263-265 | two numbers print the same text if and only if they are equal |
| `Naming.Name` | src/main/java/com/codahale/metrics/ruleskeeper/RulesKeeperReporter.java:259-261 | `MetricRegistry.name(first, parts...)` is the non-empty parts, a null first part left out, joined with '.' |
| `Naming.AppendAllJoins` | src/main/java/com/codahale/metrics/ruleskeeper/RulesKeeper.java:76 | the builder loop that skips empty parts and puts a '.' between kept ones equals joining the present parts with '.' |
| `Naming.SegmentsOfJoined` | src/main/java/com/codahale/metrics/ruleskeeper/RulesKeeper.java:76 | joining non-empty, dot-free parts and splitting the result at '.' gives the parts back |
| `Naming.NameOfPair` | src/main/java/com/codahale/metrics/ruleskeeper/RulesKeeperReporter.java:259-261 | a two-part name is one builder step after the first part |
| `Naming.NameOfTwo` | src/main/java/com/codahale/metrics/ruleskeeper/RulesKeeper.java:76 | two non-empty parts are joined by exactly one '.' |
| `Naming.NameWithoutFirst` | src/main/java/com/codahale/metrics/ruleskeeper/RulesKeeperReporter.java:259-261 | with a null or empty prefix the name is the metric name unchanged |
| `Client.IsSuccess` | src/main/java/com/codahale/metrics/ruleskeeper/RulesKeeper.java:41-63 | a status is on the allow-list exactly when it is in 200..207, 210, 300..307 or 310 |
| `Client.SingleMetricFields` | src/main/java/com/codahale/metrics/ruleskeeper/RulesKeeper.java:65-71 | the `sendSingleMetric` record: both keys are the hierarchy key; it carries the short name, value, provider and COUNTER unit; its event date reads back as the timestamp |
| `Client.ChildMetricFields` | src/main/java/com/codahale/metrics/ruleskeeper/RulesKeeper.java:73-79 | the `send` record: the technical key is `key.measure`, or whichever part is non-empty; the other fields are as in `sendSingleMetric` |
| `Client.ChildTechnicalKeyIsName` | src/main/java/com/codahale/metrics/ruleskeeper/RulesKeeper.java:76 | the technical key of a `send` record is `MetricRegistry.name(hierarchyKey, measureName)` |
| `Client.ChildDiffersFromSingleOnlyInTechnicalKey` | src/main/java/com/codahale/metrics/ruleskeeper/RulesKeeper.java:68-77 | the records of `send` and `sendSingleMetric` differ in the technical key alone |
| `Client.ChildTechnicalKeySegments` | src/main/java/com/codahale/metrics/ruleskeeper/RulesKeeper.java:76 | the technical key splits at '.' into the hierarchy key's segments followed by the measure name |
| `Naming.SegmentsOfDotted` | src/main/java/com/codahale/metrics/ruleskeeper/RulesKeeper.java:76 | splitting `a.b` at '.' gives the segments of `a` followed by those of `b` |
| `Client.Sanitize` | src/main/java/com/codahale/metrics/ruleskeeper/RulesKeeper.java:99-101 | the result holds no whitespace, is no longer than the input, and equals the input when the input has no whitespace |
| `Client.SanitizeIdempotent` | src/main/java/com/codahale/metrics/ruleskeeper/RulesKeeper.java:99-101 | sanitizing twice is sanitizing once; a string is unchanged exactly when it has no whitespace |
| `Client.SanitizeRun` | src/main/java/com/codahale/metrics/ruleskeeper/RulesKeeper.java:24 | a whole run of `\s` characters becomes a single '-' |
| `Client.SanitizeConcat` | src/main/java/com/codahale/metrics/ruleskeeper/RulesKeeper.java:99-101 | sanitizing distributes over a concatenation that does not split a whitespace run |
| `Client.AnsweredBeforeFirstFault` | src/main/java/com/codahale/metrics/ruleskeeper/RulesKeeperReporter.java:153-175 | every request before the first failure was answered |
| `Client.RunMatchesFirstFault` | src/main/java/com/codahale/metrics/ruleskeeper/RulesKeeperReporter.java:153-175 | sending events until the first exception: the log gains exactly the events before the first failed request, one more request is used when one fails, and that exception is the outcome |
| `Client.AllAnswered` | src/main/java/com/codahale/metrics/ruleskeeper/RulesKeeperReporter.java:153-175 | when every request is answered, every event is posted, one request each, and the sequence ends normally |
| `Client.RunConcat` | src/main/java/com/codahale/metrics/ruleskeeper/RulesKeeperReporter.java:155-175 | sending `a + b` is sending `a`, then sending `b` unless `a` raised |
| `Client.RulesKeeper.WithUrl` | src/main/java/com/codahale/metrics/ruleskeeper/RulesKeeper.java:32-34 | `RulesKeeper(url)` names the data provider "Metrics" |
| `Client.RulesKeeper.constructor` | src/main/java/com/codahale/metrics/ruleskeeper/RulesKeeper.java:36-39 | `RulesKeeper(url, dataProviderName)` keeps both; no request issued yet |
| `Client.RulesKeeper.SendMetricToServer` | src/main/java/com/codahale/metrics/ruleskeeper/RulesKeeper.java:81-92 | one POST to `url + "api/metrics/save"`. An answered request is logged and returns normally whatever its status; `accepted` is allow-list membership. A failed request raises its exception and logs nothing |
| `Client.RulesKeeper.SendSingleMetric` | src/main/java/com/codahale/metrics/ruleskeeper/RulesKeeper.java:65-71 | exactly one request, for the `SingleMetric` record of its arguments |
| `Client.RulesKeeper.Send` | src/main/java/com/codahale/metrics/ruleskeeper/RulesKeeper.java:73-79 | exactly one request, for the `ChildMetric` record of its arguments |
| `Flattening.FormatLong` | src/main/java/com/codahale/metrics/ruleskeeper/RulesKeeperReporter.java:263-265 | `format(long)` parses back to the number and contains no '.' |
| `Flattening.FormatObject` | src/main/java/com/codahale/metrics/ruleskeeper/RulesKeeperReporter.java:242-257 | null exactly for values that are not Float, Double, Byte, Short, Integer or Long. Float and Double print through `format(double)`; the integral boxes print as integers that parse back to their value |
| `Flattening.PrefixedName` | src/main/java/com/codahale/metrics/ruleskeeper/RulesKeeperReporter.java:259-261 | `prefix(name)`: the name alone without a prefix (null or empty); `prefix.name` when both are non-empty; the prefix alone for an empty name |
| `Flattening.PrefixedNameIsName` | src/main/java/com/codahale/metrics/ruleskeeper/RulesKeeperReporter.java:259-261 | `prefix(name)` is `MetricRegistry.name(prefix, name)` |
| `Flattening.FlattenConcat` | src/main/java/com/codahale/metrics/ruleskeeper/RulesKeeperReporter.java:156-158 | the events of a map split in two are the events of the first part, then those of the second |
| `Flattening.HistogramEventsTable` | src/main/java/com/codahale/metrics/ruleskeeper/RulesKeeperReporter.java:202-215 | a histogram sends one record per measure of count, max, mean, min, stddev, p50, p75, p95, p98, p99, p999, in that order, each with its value |
| `Flattening.MeterEventsListed` | src/main/java/com/codahale/metrics/ruleskeeper/RulesKeeperReporter.java:217-223 | a meter sends count, m1_rate, m5_rate, m15_rate and mean_rate, the rates converted to the rate unit |
| `Flattening.DurationEventsTable` | src/main/java/com/codahale/metrics/ruleskeeper/RulesKeeperReporter.java:225-237 | a timer first sends max, mean, min, stddev and the six quantiles, each converted to the duration unit |
| `Flattening.ChildrenConcat` | src/main/java/com/codahale/metrics/ruleskeeper/RulesKeeperReporter.java:203-214 | the records of two tables of measures, one after the other, are the records of the joined table |
| `Flattening.GaugeEventsStamped` | src/main/java/com/codahale/metrics/ruleskeeper/RulesKeeperReporter.java:191-196 | a gauge's record, if any, is under `prefix(name)` and carries the provider, the cycle's timestamp and COUNTER |
| `Flattening.CounterEventsStamped` | src/main/java/com/codahale/metrics/ruleskeeper/RulesKeeperReporter.java:198-200 | a counter's record is under `prefix(name)` and stamped by the cycle |
| `Flattening.HistogramEventsStamped` | src/main/java/com/codahale/metrics/ruleskeeper/RulesKeeperReporter.java:202-215 | all eleven histogram records are under `prefix(name)` and stamped by the cycle |
| `Flattening.MeterEventsStamped` | src/main/java/com/codahale/metrics/ruleskeeper/RulesKeeperReporter.java:217-223 | all five meter records are under `prefix(name)` and stamped by the cycle |
| `Flattening.TimerEventsStamped` | src/main/java/com/codahale/metrics/ruleskeeper/RulesKeeperReporter.java:225-240 | all fifteen timer records are under `prefix(name)` and stamped by the cycle |
| `Flattening.FlattenStamped` | src/main/java/com/codahale/metrics/ruleskeeper/RulesKeeperReporter.java:156-174 | when each entry's events are stamped, so are the events of the whole map |
| `Flattening.CycleEventsStamped` | src/main/java/com/codahale/metrics/ruleskeeper/RulesKeeperReporter.java:152-175 | every event of one cycle names the client's data provider, is dated with the single clock reading taken at the start, and is COUNTER |
| `Flattening.SortedKeysDistinct` | src/main/java/com/codahale/metrics/ruleskeeper/RulesKeeperReporter.java:151 | the keys within one sorted map are distinct |
| `Flattening.PrefixedNameInjective` | src/main/java/com/codahale/metrics/ruleskeeper/RulesKeeperReporter.java:259-261 | under one prefix, `prefix(a) == prefix(b)` only when `a == b` |
| `Flattening.DecompositionsKeyed` | src/main/java/com/codahale/metrics/ruleskeeper/RulesKeeperReporter.java:191-240 | every `report*` helper sends all of a metric's records under `prefix(name)` |
| `Flattening.DistinctEntriesKeyedApart` | src/main/java/com/codahale/metrics/ruleskeeper/RulesKeeperReporter.java:156-174 | no record of one entry of a map shares its hierarchy key with a record of another entry of the same map |
| `Reporter.Caught` | src/main/java/com/codahale/metrics/ruleskeeper/RulesKeeperReporter.java:176-184 | `report` ends by an exception exactly when an unchecked exception other than `IllegalArgumentException` was raised, and then by that one |
| `Reporter.ForRegistry` | src/main/java/com/codahale/metrics/ruleskeeper/RulesKeeperReporter.java:53-55 | a fresh builder with the defaults |
| `Reporter.Builder.constructor` | src/main/java/com/codahale/metrics/ruleskeeper/RulesKeeperReporter.java:69-76 | default clock, no prefix, rates per second, durations in milliseconds, `MetricFilter.ALL` |
| `Reporter.Builder.WithClock` | src/main/java/com/codahale/metrics/ruleskeeper/RulesKeeperReporter.java:85-88 | sets the clock, keeps the other settings, returns the same builder |
| `Reporter.Builder.PrefixedWith` | src/main/java/com/codahale/metrics/ruleskeeper/RulesKeeperReporter.java:97-100 | sets the prefix, keeps the other settings, returns the same builder |
| `Reporter.Builder.ConvertRatesTo` | src/main/java/com/codahale/metrics/ruleskeeper/RulesKeeperReporter.java:109-112 | sets the rate unit, keeps the other settings, returns the same builder |
| `Reporter.Builder.ConvertDurationsTo` | src/main/java/com/codahale/metrics/ruleskeeper/RulesKeeperReporter.java:121-124 | sets the duration unit, keeps the other settings, returns the same builder |
| `Reporter.Builder.Filter` | src/main/java/com/codahale/metrics/ruleskeeper/RulesKeeperReporter.java:133-136 | sets the filter, keeps the other settings, returns the same builder |
| `Reporter.Builder.Build` | src/main/java/com/codahale/metrics/ruleskeeper/RulesKeeperReporter.java:145-147 | a fresh reporter with exactly the builder's settings and the given client |
| `Reporter.RulesKeeperReporter.constructor` | src/main/java/com/codahale/metrics/ruleskeeper/RulesKeeperReporter.java:38-44 | keeps the registry, client, clock, prefix, units and filter |
| `Reporter.RulesKeeperReporter.Report` | src/main/java/com/codahale/metrics/ruleskeeper/RulesKeeperReporter.java:150-185 | one cycle. The client's log gains exactly the cycle's events before the first failed request; one request is used per event sent plus the failed one; `report` returns normally unless that failure is unchecked |
| `Reporter.RulesKeeperReporter.ReportGauges` | src/main/java/com/codahale/metrics/ruleskeeper/RulesKeeperReporter.java:156-158 | the gauge loop sends the gauges' events in key order, up to the first exception |
| `Reporter.RulesKeeperReporter.ReportCounters` | src/main/java/com/codahale/metrics/ruleskeeper/RulesKeeperReporter.java:160-162 | the counter loop sends the counters' events in key order, up to the first exception |
| `Reporter.RulesKeeperReporter.ReportHistograms` | src/main/java/com/codahale/metrics/ruleskeeper/RulesKeeperReporter.java:164-166 | the histogram loop sends the histograms' events in key order, up to the first exception |
| `Reporter.RulesKeeperReporter.ReportMeters` | src/main/java/com/codahale/metrics/ruleskeeper/RulesKeeperReporter.java:168-170 | the meter loop sends the meters' events in key order, up to the first exception |
| `Reporter.RulesKeeperReporter.ReportTimers` | src/main/java/com/codahale/metrics/ruleskeeper/RulesKeeperReporter.java:172-174 | the timer loop sends the timers' events in key order, up to the first exception |
| `Reporter.RulesKeeperReporter.ReportGauge` | src/main/java/com/codahale/metrics/ruleskeeper/RulesKeeperReporter.java:191-196 | sends the gauge's one record, or nothing (and raises nothing) when `format(Object)` is null |
| `Reporter.RulesKeeperReporter.ReportCounter` | src/main/java/com/codahale/metrics/ruleskeeper/RulesKeeperReporter.java:198-200 | sends the counter's one record |
| `Reporter.RulesKeeperReporter.SendEvent` | src/main/java/com/codahale/metrics/ruleskeeper/RulesKeeperReporter.java:203-213 | one `send` of a table's next measure either ends the run with its exception or advances it by one event |
| `Reporter.RulesKeeperReporter.SendSpread` | src/main/java/com/codahale/metrics/ruleskeeper/RulesKeeperReporter.java:204-207 | the max, mean, min and stddev sends, in that order, up to the first exception |
| `Reporter.RulesKeeperReporter.SendQuantiles` | src/main/java/com/codahale/metrics/ruleskeeper/RulesKeeperReporter.java:208-213 | the p50 to p999 sends, in that order, up to the first exception |
| `Reporter.RulesKeeperReporter.ReportHistogram` | src/main/java/com/codahale/metrics/ruleskeeper/RulesKeeperReporter.java:202-215 | sends the histogram's eleven records in order, up to the first exception |
| `Reporter.RulesKeeperReporter.ReportMetered` | src/main/java/com/codahale/metrics/ruleskeeper/RulesKeeperReporter.java:217-223 | sends the meter's five records in order, up to the first exception |
| `Reporter.RulesKeeperReporter.ReportTimer` | src/main/java/com/codahale/metrics/ruleskeeper/RulesKeeperReporter.java:225-240 | sends the ten duration records, then those of `reportMetered`, up to the first exception |

## Left out

- HTTP and the asynchronous client. Each request's answer comes from the client's constant `network`, indexed by request number. Creating and closing the `AsyncHttpClient` of each request is not modelled. Neither is the fact that it stays open when `execute(...).get()` raises.
- Protocol-buffer serialization (`toByteString`, `toStringUtf8`). A POST carries the `Metric` record itself.
- Floating point. `String.format(Locale.US, "%2.2f", v)`, the long-to-double widening, and the `convertRate`/`convertDuration` conversions of `ScheduledReporter` are functions the caller supplies in `FloatOps`. The model never computes with a `double`.
- The clock. `clock.getTime()` is the parameter `now` of `Report`, read once per cycle.
- Scheduling, the metric filter and the registry's contents. These belong to `ScheduledReporter` and are not part of this model. `Report` receives the five sorted maps already filtered, as snapshots of each metric's readings.
- Logging: `connectionError`, the debug lines of `sendMetricToServer`, and the `Handler` callbacks.
- `close()`, which does nothing.
- `MetricRegistry.name` is not part of this model's source files. `Naming.Name` follows its behaviour in metrics-core 3.
- `Flattening.Less` orders strings by character code. Java's `String.compareTo` compares UTF-16 code units, so the two differ above U+FFFF.
- The straight-line sends of `reportHistogram`, `reportMetered` and `reportTimer` are grouped: `SendSpread` covers max to stddev, `SendQuantiles` covers p50 to p999, and `SendEvent` covers a single send. The calls, their order and their arguments are unchanged. Each loop of `report` is its own method (`ReportGauges` … `ReportTimers`), called in the source's order.
