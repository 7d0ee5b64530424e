/**
 * The RulesKeeper HTTP client (RulesKeeper.java): it turns one measurement into
 * a `Metric` record, posts it to `<url>api/metrics/save`, and classifies the
 * answer's status code against a fixed allow-list.
 *
 * The network is the constant `network`: the answer to the n-th request this
 * client issues, either an HTTP status or one of the exceptions the blocking
 * `execute(handler).get()` can raise. `log` holds, in order, every POST that
 * the server answered (whatever the status).
 */
module Client {
  import opened JavaLang
  import opened Naming
  import opened Wire

  const ApiUri := "api/metrics/save"
  const DefaultDataProvider := "Metrics"

  /** The SUCESSS_STATUS_CODE list, as the class's static initializer fills it. */
  const SuccessStatusCodes: seq<int> :=
    [200, 201, 202, 203, 204, 205, 206, 207, 210,
     300, 301, 302, 303, 304, 305, 306, 307, 310]

  /** Whether `sendMetricToServer` reports the answer as a successful send. */
  function IsSuccess(status: int): (ok: bool)
    ensures ok <==> (200 <= status <= 207 || status == 210 || 300 <= status <= 307 || status == 310)
  {
    status in SuccessStatusCodes
  }

  /** The record `sendSingleMetric` builds. */
  function SingleMetric(provider: string, hierarchyKey: string, measureName: string, value: string, timestamp: int64): Metric {
    Metric(provider, hierarchyKey, hierarchyKey, measureName, DecimalText(timestamp as int), Counter, value)
  }

  /** The record `send` builds. */
  function ChildMetric(provider: string, hierarchyKey: string, measureName: string, value: string, timestamp: int64): Metric {
    Metric(provider, hierarchyKey, Append(hierarchyKey, measureName), measureName,
           DecimalText(timestamp as int), Counter, value)
  }

  /**
   * A `sendSingleMetric` record: both keys are the hierarchy key, the short
   * name is the measure name, the unit is COUNTER, and the event date reads
   * back as the timestamp.
   */
  lemma SingleMetricFields(provider: string, hierarchyKey: string, measureName: string, value: string, timestamp: int64)
    ensures var m := SingleMetric(provider, hierarchyKey, measureName, value, timestamp);
      && m.technicalKey == m.hierarchyKey == hierarchyKey
      && m.shortName == measureName && m.value == value && m.dataProvider == provider
      && m.unit == Counter && ParseDecimal(m.eventDate) == Some(timestamp as int)
  {
    DecimalTextRoundTrip(timestamp as int);
  }

  /**
   * A `send` record: the technical key nests the measure name under the
   * hierarchy key with one '.', an empty part being left out; the other fields
   * are those of `sendSingleMetric`.
   */
  lemma ChildMetricFields(provider: string, hierarchyKey: string, measureName: string, value: string, timestamp: int64)
    ensures var m := ChildMetric(provider, hierarchyKey, measureName, value, timestamp);
      && m.hierarchyKey == hierarchyKey
      && (hierarchyKey != "" && measureName != "" ==> m.technicalKey == hierarchyKey + "." + measureName)
      && (hierarchyKey == "" ==> m.technicalKey == measureName)
      && (measureName == "" ==> m.technicalKey == hierarchyKey)
      && m.shortName == measureName && m.value == value && m.dataProvider == provider
      && m.unit == Counter && ParseDecimal(m.eventDate) == Some(timestamp as int)
  {
    DecimalTextRoundTrip(timestamp as int);
  }

  /** The technical key is `MetricRegistry.name(hierarchyKey, measureName)`. */
  lemma ChildTechnicalKeyIsName(provider: string, key: string, measure: string, value: string, timestamp: int64)
    ensures ChildMetric(provider, key, measure, value, timestamp).technicalKey == Name(Some(key), [measure])
  {
    NameOfPair(Some(key), measure);
  }

  /** The two records differ only in the technical key. */
  lemma ChildDiffersFromSingleOnlyInTechnicalKey(provider: string, key: string, measure: string, value: string, timestamp: int64)
    ensures ChildMetric(provider, key, measure, value, timestamp)
         == SingleMetric(provider, key, measure, value, timestamp).(technicalKey := Name(Some(key), [measure]))
  {
    ChildTechnicalKeyIsName(provider, key, measure, value, timestamp);
  }

  /**
   * The technical key of a `send` record splits at '.' into the hierarchy key's
   * segments followed by the measure name, when both are non-empty and the
   * measure name holds no '.'.
   */
  lemma ChildTechnicalKeySegments(provider: string, key: string, measure: string, value: string, timestamp: int64)
    requires key != "" && measure != "" && '.' !in measure
    ensures var m := ChildMetric(provider, key, measure, value, timestamp);
      m.technicalKey == key + "." + measure &&
      Segments(m.technicalKey) == Segments(key) + [measure]
  {
    SegmentsOfDotted(key, measure);
    SegmentsOfJoined([measure]);
  }

  // ---------------------------------------------------------------------------
  // sanitize: every maximal run of `\s` characters becomes one "-"
  // ---------------------------------------------------------------------------

  /** Java's `\s`: space, tab, line feed, vertical tab, form feed, carriage return. */
  predicate IsWhitespace(c: char) {
    c == ' ' || '\t' <= c <= '\r'
  }

  predicate WhitespaceFree(s: string) {
    forall i :: 0 <= i < |s| ==> !IsWhitespace(s[i])
  }

  predicate AllWhitespace(s: string) {
    forall i :: 0 <= i < |s| ==> IsWhitespace(s[i])
  }

  /** Drops the run of whitespace at the start of `s`. */
  function DropWhitespace(s: string): (r: string)
    ensures |r| <= |s|
    ensures s != [] && IsWhitespace(s[0]) ==> |r| < |s|
    ensures r == [] || !IsWhitespace(r[0])
    ensures r != [] ==> r[|r| - 1] == s[|s| - 1]
    ensures r == [] ==> AllWhitespace(s)
    decreases |s|
  {
    if s != [] && IsWhitespace(s[0]) then DropWhitespace(s[1..]) else s
  }

  /** `sanitize(s)`: `s` with each maximal run of whitespace replaced by a single '-'. */
  function Sanitize(s: string): (r: string)
    ensures WhitespaceFree(r)
    ensures |r| <= |s|
    ensures WhitespaceFree(s) ==> r == s
    decreases |s|
  {
    if s == [] then ""
    else if IsWhitespace(s[0]) then "-" + Sanitize(DropWhitespace(s))
    else [s[0]] + Sanitize(s[1..])
  }

  /** Sanitizing twice is sanitizing once, and a string is left alone exactly when it has no whitespace. */
  lemma SanitizeIdempotent(s: string)
    ensures Sanitize(Sanitize(s)) == Sanitize(s)
    ensures Sanitize(s) == s <==> WhitespaceFree(s)
  {
  }

  /** A non-empty run of whitespace on its own becomes one '-'. */
  lemma SanitizeRun(w: string)
    requires w != [] && AllWhitespace(w)
    ensures Sanitize(w) == "-"
  {
    DropWhitespaceOfRun(w, []);
    assert w + [] == w;
  }

  lemma {:induction false} DropWhitespaceConcat(x: string, y: string)
    requires exists i :: 0 <= i < |x| && !IsWhitespace(x[i])
    ensures DropWhitespace(x + y) == DropWhitespace(x) + y
    decreases |x|
  {
    var i :| 0 <= i < |x| && !IsWhitespace(x[i]);
    if IsWhitespace(x[0]) {
      var t := x[1..];
      assert (x + y)[1..] == t + y;
      assert t[i - 1] == x[i];
      DropWhitespaceConcat(t, y);
    }
  }

  lemma DropWhitespaceOfRun(w: string, y: string)
    requires AllWhitespace(w)
    requires y == [] || !IsWhitespace(y[0])
    ensures DropWhitespace(w + y) == y
    decreases |w|
  {
    if w != [] {
      assert (w + y)[1..] == w[1..] + y;
      DropWhitespaceOfRun(w[1..], y);
    }
  }

  /**
   * Sanitizing distributes over a concatenation that does not split a run of
   * whitespace: the maximal runs of `x + y` are those of `x` and those of `y`.
   */
  lemma {:induction false} SanitizeConcat(x: string, y: string)
    requires x == [] || y == [] || !IsWhitespace(x[|x| - 1]) || !IsWhitespace(y[0])
    ensures Sanitize(x + y) == Sanitize(x) + Sanitize(y)
    decreases |x|
  {
    if x == [] {
      assert x + y == y;
    } else if y == [] {
      assert x + y == x;
    } else if IsWhitespace(x[0]) {
      if AllWhitespace(x) {
        assert !IsWhitespace(y[0]);
        DropWhitespaceOfRun(x, y);
        DropWhitespaceOfRun(x, []);
        assert x + [] == x;
      } else {
        var i :| 0 <= i < |x| && !IsWhitespace(x[i]);
        DropWhitespaceConcat(x, y);
        var d := DropWhitespace(x);
        assert d != [];
        SanitizeConcat(d, y);
      }
    } else {
      assert (x + y)[1..] == x[1..] + y;
      SanitizeConcat(x[1..], y);
    }
  }

  // ---------------------------------------------------------------------------
  // Sending: the outcome of a sequence of sends
  // ---------------------------------------------------------------------------

  /** The exceptions a send can end with. The first four are the ones `report` catches. */
  datatype Fault = IOFailure | Interrupted | ExecutionFailure | IllegalArgument | Unchecked

  /** What the network does with one request: an HTTP answer, or an exception. */
  datatype Response = Responded(status: int) | Failed(fault: Fault)

  /** How a Java `void` method ends: normally, or by throwing. */
  datatype Outcome = Returned | Raised(fault: Fault)

  /** One form POST of a serialized `Metric` as the parameter `data`. */
  datatype Post = Post(target: string, data: Metric)

  function Posts(target: string, ms: seq<Metric>): (ps: seq<Post>)
    ensures |ps| == |ms| && forall i :: 0 <= i < |ms| ==> ps[i] == Post(target, ms[i])
  {
    seq(|ms|, i requires 0 <= i < |ms| => Post(target, ms[i]))
  }

  lemma PostsConcat(target: string, a: seq<Metric>, b: seq<Metric>)
    ensures Posts(target, a + b) == Posts(target, a) + Posts(target, b)
  {
  }

  /**
   * Among `n` requests issued from request number `start` on, how many are
   * answered before the first one that fails (`n` when none fails).
   */
  function FirstFault(network: nat -> Response, start: nat, n: nat): (k: nat)
    ensures k <= n
    ensures k < n ==> network(start + k).Failed?
    decreases n
  {
    if n == 0 || network(start).Failed? then 0 else 1 + FirstFault(network, start + 1, n - 1)
  }

  /** Every request before the first failure is answered. */
  lemma {:induction false} AnsweredBeforeFirstFault(network: nat -> Response, start: nat, n: nat)
    ensures forall i :: start <= i < start + FirstFault(network, start, n) ==> network(i).Responded?
    decreases n
  {
    if n > 0 && network(start).Responded? {
      AnsweredBeforeFirstFault(network, start + 1, n - 1);
    }
  }

  /** The events of `evs` that reach the server when they are sent one after another from request `start` on. */
  function Delivered(network: nat -> Response, start: nat, evs: seq<Metric>): seq<Metric> {
    evs[..FirstFault(network, start, |evs|)]
  }

  /** The requests issued: the delivered ones and, if any, the one that failed. */
  function Used(network: nat -> Response, start: nat, evs: seq<Metric>): nat {
    var k := FirstFault(network, start, |evs|);
    if k < |evs| then k + 1 else k
  }

  /** How the sequence of sends ends: by the first failure's exception, or normally. */
  function Result(network: nat -> Response, start: nat, evs: seq<Metric>): Outcome {
    var k := FirstFault(network, start, |evs|);
    if k < |evs| then Raised(network(start + k).fault) else Returned
  }

  /** When every request is answered, every event is delivered and the sequence ends normally. */
  lemma {:induction false} AllAnswered(network: nat -> Response, start: nat, evs: seq<Metric>)
    requires forall i :: start <= i < start + |evs| ==> network(i).Responded?
    ensures Delivered(network, start, evs) == evs
    ensures Used(network, start, evs) == |evs|
    ensures Result(network, start, evs) == Returned
    decreases |evs|
  {
    if evs != [] {
      assert network(start).Responded?;
      AllAnswered(network, start + 1, evs[1..]);
      assert FirstFault(network, start, |evs|) == 1 + FirstFault(network, start + 1, |evs| - 1);
    }
  }

  /** The client's request count, its log of answered requests, and how the last call ended. */
  datatype Sending = Sending(attempts: nat, log: seq<Post>, outcome: Outcome)

  /**
   * Sends `evs[from..]` one after another from request number `attempts` on:
   * an answered request is logged and the next one follows; the first
   * exception ends the sequence with nothing more sent.
   */
  function Run(network: nat -> Response, target: string, attempts: nat, log: seq<Post>, evs: seq<Metric>, from: nat): Sending
    requires from <= |evs|
    decreases |evs| - from
  {
    if from == |evs| then Sending(attempts, log, Returned)
    else match network(attempts)
      case Failed(fault) => Sending(attempts + 1, log, Raised(fault))
      case Responded(_) => Run(network, target, attempts + 1, log + [Post(target, evs[from])], evs, from + 1)
  }

  /** When the first request is answered, the first event is delivered and the rest continue one request later. */
  lemma AnsweredFirst(network: nat -> Response, start: nat, evs: seq<Metric>)
    requires evs != [] && network(start).Responded?
    ensures Used(network, start, evs) == 1 + Used(network, start + 1, evs[1..])
    ensures Result(network, start, evs) == Result(network, start + 1, evs[1..])
    ensures Delivered(network, start, evs) == [evs[0]] + Delivered(network, start + 1, evs[1..])
  {
    var k := FirstFault(network, start + 1, |evs| - 1);
    assert FirstFault(network, start, |evs|) == 1 + k;
    assert evs[..1 + k] == [evs[0]] + evs[1..][..k];
  }

  /**
   * Sending `evs` from position `j` is sending the slice of the next `n`
   * events, then, unless that raised, the rest from where it left off.
   */
  lemma RunSlice(network: nat -> Response, target: string, attempts: nat, log: seq<Post>, evs: seq<Metric>, j: nat, n: nat)
    requires j + n <= |evs|
    ensures Run(network, target, attempts, log, evs, j)
         == var s := Run(network, target, attempts, log, evs[j..j + n], 0);
            if s.outcome.Raised? then s else Run(network, target, s.attempts, s.log, evs, j + n)
  {
    RunSliceFrom(network, target, attempts, log, evs, j, n, 0);
  }

  lemma {:induction false} RunSliceFrom(network: nat -> Response, target: string, attempts: nat, log: seq<Post>,
                                        evs: seq<Metric>, j: nat, n: nat, i: nat)
    requires j + n <= |evs| && i <= n
    ensures Run(network, target, attempts, log, evs, j + i)
         == var s := Run(network, target, attempts, log, evs[j..j + n], i);
            if s.outcome.Raised? then s else Run(network, target, s.attempts, s.log, evs, j + n)
    decreases n - i
  {
    var sub := evs[j..j + n];
    if i < n {
      assert sub[i] == evs[j + i];
      if network(attempts).Responded? {
        RunSliceFrom(network, target, attempts + 1, log + [Post(target, evs[j + i])], evs, j, n, i + 1);
      }
    }
  }

  /** Sending `b` after `a` from position `|a| + from` of `a + b` is sending `b` from `from`. */
  lemma {:induction false} RunShift(network: nat -> Response, target: string, attempts: nat, log: seq<Post>,
                                    a: seq<Metric>, b: seq<Metric>, from: nat)
    requires from <= |b|
    ensures Run(network, target, attempts, log, a + b, |a| + from) == Run(network, target, attempts, log, b, from)
    decreases |b| - from
  {
    if from < |b| {
      assert (a + b)[|a| + from] == b[from];
      RunShift(network, target, attempts + 1, log + [Post(target, b[from])], a, b, from + 1);
    }
  }

  /**
   * `Run` agrees with the description by the first failure: the log gains
   * exactly the events before it, one more request is used when there is a
   * failure, and its exception is the outcome.
   */
  lemma {:induction false} RunMatchesFirstFault(network: nat -> Response, target: string, attempts: nat, log: seq<Post>,
                                                evs: seq<Metric>)
    ensures Run(network, target, attempts, log, evs, 0)
         == Sending(attempts + Used(network, attempts, evs),
                    log + Posts(target, Delivered(network, attempts, evs)),
                    Result(network, attempts, evs))
    decreases |evs|
  {
    if evs == [] || network(attempts).Failed? {
      RunStops(network, target, attempts, log, evs);
    } else {
      var next := log + [Post(target, evs[0])];
      var tail := evs[1..];
      RunAnswered(network, target, attempts, log, evs);
      RunMatchesFirstFault(network, target, attempts + 1, next, tail);
      AnsweredFirst(network, attempts, evs);
      PostsConcat(target, [evs[0]], Delivered(network, attempts + 1, tail));
      assert Posts(target, [evs[0]]) == [Post(target, evs[0])];
    }
  }

  /** An answered first request logs the first event; the rest are sent from the next request on. */
  lemma RunAnswered(network: nat -> Response, target: string, attempts: nat, log: seq<Post>, evs: seq<Metric>)
    requires evs != [] && network(attempts).Responded?
    ensures Run(network, target, attempts, log, evs, 0)
         == Run(network, target, attempts + 1, log + [Post(target, evs[0])], evs[1..], 0)
  {
    var next := log + [Post(target, evs[0])];
    assert Run(network, target, attempts, log, evs, 0) == Run(network, target, attempts + 1, next, evs, 1);
    assert [evs[0]] + evs[1..] == evs;
    RunShift(network, target, attempts + 1, next, [evs[0]], evs[1..], 0);
  }

  /** With nothing to send, or a failing first request, the run ends at once. */
  lemma RunStops(network: nat -> Response, target: string, attempts: nat, log: seq<Post>, evs: seq<Metric>)
    requires evs == [] || network(attempts).Failed?
    ensures Run(network, target, attempts, log, evs, 0)
         == Sending(attempts + Used(network, attempts, evs),
                    log + Posts(target, Delivered(network, attempts, evs)),
                    Result(network, attempts, evs))
  {
    assert evs[..0] == [];
    assert log + Posts(target, []) == log;
  }

  /**
   * Sending `a + b` is sending `a`, then, unless that raised, sending `b` from
   * the state `a` left.
   */
  lemma RunConcat(network: nat -> Response, target: string, attempts: nat, log: seq<Post>, a: seq<Metric>, b: seq<Metric>)
    ensures Run(network, target, attempts, log, a + b, 0)
         == var s := Run(network, target, attempts, log, a, 0);
            if s.outcome.Raised? then s else Run(network, target, s.attempts, s.log, b, 0)
  {
    RunSlice(network, target, attempts, log, a + b, 0, |a|);
    assert (a + b)[0..|a|] == a;
    var s := Run(network, target, attempts, log, a, 0);
    if s.outcome.Returned? {
      RunShift(network, target, s.attempts, s.log, a, b, 0);
    }
  }

  /**
   * One request for `m`, made as request number `before` with the log at
   * `logBefore`: it is answered and logged, or it raises and logs nothing.
   */
  ghost predicate SentOne(network: nat -> Response, target: string, before: nat, logBefore: seq<Post>,
                          m: Metric, attempts: nat, log: seq<Post>, r: Outcome)
  {
    && attempts == before + 1
    && (network(before).Responded? ==> r == Returned && log == logBefore + [Post(target, m)])
    && (network(before).Failed? ==> r == Raised(network(before).fault) && log == logBefore)
  }

  /** A single request is `Run` of the one-event sequence. */
  lemma SentOneRun(network: nat -> Response, target: string, before: nat, logBefore: seq<Post>,
                   m: Metric, attempts: nat, log: seq<Post>, r: Outcome)
    requires SentOne(network, target, before, logBefore, m, attempts, log, r)
    ensures Sending(attempts, log, r) == Run(network, target, before, logBefore, [m], 0)
  {
    if network(before).Responded? {
      assert Run(network, target, before, logBefore, [m], 0) == Run(network, target, before + 1, log, [m], 1);
    }
  }

  /**
   * The request for event `j` of `evs`, from a state in which sending `evs`
   * from `j` on ends as sending all of `evs` from `(attempts0, log0)` does.
   */
  lemma RunStepsThroughSend(network: nat -> Response, target: string, attempts0: nat, log0: seq<Post>, evs: seq<Metric>,
                            j: nat, before: nat, logBefore: seq<Post>, m: Metric, attempts: nat, log: seq<Post>, r: Outcome)
    requires j < |evs| && evs[j] == m
    requires Run(network, target, attempts0, log0, evs, 0) == Run(network, target, before, logBefore, evs, j)
    requires SentOne(network, target, before, logBefore, m, attempts, log, r)
    ensures r.Raised? ==> Run(network, target, attempts0, log0, evs, 0) == Sending(attempts, log, r)
    ensures r.Returned? ==> Run(network, target, attempts0, log0, evs, 0) == Run(network, target, attempts, log, evs, j + 1)
  {
  }

  // ---------------------------------------------------------------------------
  // The client object
  // ---------------------------------------------------------------------------

  class RulesKeeper {
    const url: string
    const dataProviderName: string
    /** The answer to each request this client issues, by request number. */
    const network: nat -> Response
    /** The number of requests issued so far. */
    var attempts: nat
    /** The POSTs the server answered, in order. */
    var log: seq<Post>

    /** `RulesKeeper(url)`: the data provider is named "Metrics". */
    constructor WithUrl(url: string, network: nat -> Response)
      ensures this.url == url && dataProviderName == DefaultDataProvider && this.network == network
      ensures attempts == 0 && log == []
    {
      this.url := url;
      this.dataProviderName := DefaultDataProvider;
      this.network := network;
      attempts := 0;
      log := [];
    }

    /** `RulesKeeper(url, dataProviderName)` */
    constructor (url: string, dataProviderName: string, network: nat -> Response)
      ensures this.url == url && this.dataProviderName == dataProviderName && this.network == network
      ensures attempts == 0 && log == []
    {
      this.url := url;
      this.dataProviderName := dataProviderName;
      this.network := network;
      attempts := 0;
      log := [];
    }

    /** Where every metric is posted. */
    function Target(): string {
      url + ApiUri
    }

    /**
     * Posts `m` as the form parameter `data`. An answered request returns
     * normally whatever its status, and `accepted` says whether the status is
     * on the allow-list; a failed request raises its exception.
     */
    method SendMetricToServer(m: Metric) returns (r: Outcome, accepted: bool)
      modifies this
      ensures attempts == old(attempts) + 1
      ensures network(old(attempts)).Responded? ==>
        && log == old(log) + [Post(url + ApiUri, m)]
        && r == Returned
        && accepted == IsSuccess(network(old(attempts)).status)
      ensures network(old(attempts)).Failed? ==>
        && log == old(log)
        && r == Raised(network(old(attempts)).fault)
        && !accepted
    {
      var response := network(attempts);
      attempts := attempts + 1;
      match response
      case Failed(fault) =>
        r, accepted := Raised(fault), false;
      case Responded(status) =>
        log := log + [Post(url + ApiUri, m)];
        r := Returned;
        accepted := status in SuccessStatusCodes;
    }

    /** `sendSingleMetric`: one request for the record `SingleMetric` describes. */
    method SendSingleMetric(hierarchyKey: string, measureName: string, value: string, timestamp: int64) returns (r: Outcome)
      modifies this
      ensures SentOne(network, Target(), old(attempts), old(log),
                      SingleMetric(dataProviderName, hierarchyKey, measureName, value, timestamp), attempts, log, r)
    {
      var m := SingleMetric(dataProviderName, hierarchyKey, measureName, value, timestamp);
      var accepted;
      r, accepted := SendMetricToServer(m);
    }

    /** `send`: one request for the record `ChildMetric` describes. */
    method Send(hierarchyKey: string, measureName: string, value: string, timestamp: int64) returns (r: Outcome)
      modifies this
      ensures SentOne(network, Target(), old(attempts), old(log),
                      ChildMetric(dataProviderName, hierarchyKey, measureName, value, timestamp), attempts, log, r)
    {
      var m := ChildMetric(dataProviderName, hierarchyKey, measureName, value, timestamp);
      var accepted;
      r, accepted := SendMetricToServer(m);
    }
  }
}
