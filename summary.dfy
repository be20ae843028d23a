/**
 * handleSummary of benchmarks/benchmark.js: from the metrics k6 hands over
 * at the end of a run to the fixed-shape report. Metrics are looked up by
 * their tagged names; any of them, and any of their values, may be missing,
 * and JavaScript's `||` supplies the fallbacks. A number is falsy when it is
 * 0 or undefined; a metric object, when present, is truthy.
 */
module Summary {
  import opened Wrappers
  import opened Results

  /** A metric's `values` object; a key that is absent reads as undefined. */
  type Values = map<string, real>

  /** The `data` argument: the metrics by name, and state.testRunDurationMs (possibly undefined). */
  datatype SummaryData = SummaryData(metrics: map<string, Values>, testRunDurationMs: Option<real>)

  /** A JavaScript number, possibly undefined, in a boolean position. */
  predicate Truthy(v: Option<real>) {
    v.Some? && v.value != 0.0
  }

  /** `values[key]` */
  function Lookup(values: Values, key: string): (r: Option<real>)
    ensures r.Some? <==> key in values
    ensures key in values ==> r.value == values[key]
  {
    if key in values then Some(values[key]) else None
  }

  /** `a || b || … || 0`: the first truthy operand, or 0 when there is none. */
  function FirstTruthy(chain: seq<Option<real>>): (r: real)
    ensures forall i | 0 <= i < |chain| ::
              Truthy(chain[i]) && (forall j | 0 <= j < i :: !Truthy(chain[j])) ==> r == chain[i].value
    ensures (forall i | 0 <= i < |chain| :: !Truthy(chain[i])) ==> r == 0.0
  {
    if chain == [] then 0.0
    else if Truthy(chain[0]) then chain[0].value
    else FirstTruthy(chain[1..])
  }

  /** `data.metrics[key] || fallback` */
  function MetricOr(data: SummaryData, key: string, fallback: Values): (v: Values)
    ensures key in data.metrics ==> v == data.metrics[key]
    ensures key !in data.metrics ==> v == fallback
  {
    if key in data.metrics then data.metrics[key] else fallback
  }

  function LatencyKey(ep: string): string { "http_req_duration{type:" + ep + "}" }
  function CounterKey(ep: string): string { "requests{route:" + ep + "}" }
  function CounterKeyAlt(ep: string): string { "requests{route=" + ep + "}" }
  function ErrorsKey(ep: string): string { "errors{type:" + ep + "}" }

  function LatencyValues(data: SummaryData, ep: string): Values {
    MetricOr(data, LatencyKey(ep), map["med" := 0.0, "p(95)" := 0.0])
  }

  /**
   * The p50 entry: med, else p(90), else avg, else 0. Whatever the metrics,
   * it is 0 or one of those three values, and with no latency metric for
   * the endpoint it is 0.
   */
  function P50(data: SummaryData, ep: string): (r: real)
    ensures LatencyKey(ep) !in data.metrics ==> r == 0.0
    ensures var v := LatencyValues(data, ep);
            || r == 0.0
            || ("med" in v && r == v["med"])
            || ("p(90)" in v && r == v["p(90)"])
            || ("avg" in v && r == v["avg"])
  {
    var v := LatencyValues(data, ep);
    FirstTruthy([Lookup(v, "med"), Lookup(v, "p(90)"), Lookup(v, "avg")])
  }

  /** The p95 entry: the endpoint's p(95) when it was recorded, else 0. */
  function P95(data: SummaryData, ep: string): (r: real)
    ensures LatencyKey(ep) in data.metrics && "p(95)" in data.metrics[LatencyKey(ep)] ==>
              r == data.metrics[LatencyKey(ep)]["p(95)"]
    ensures LatencyKey(ep) in data.metrics && "p(95)" !in data.metrics[LatencyKey(ep)] ==> r == 0.0
    ensures LatencyKey(ep) !in data.metrics ==> r == 0.0
  {
    FirstTruthy([Lookup(LatencyValues(data, ep), "p(95)")])
  }

  /** The error-rate entry: the endpoint's `errors` rate when it was recorded, else 0. */
  function ErrorRate(data: SummaryData, ep: string): (r: real)
    ensures ErrorsKey(ep) in data.metrics && "rate" in data.metrics[ErrorsKey(ep)] ==>
              r == data.metrics[ErrorsKey(ep)]["rate"]
    ensures ErrorsKey(ep) in data.metrics && "rate" !in data.metrics[ErrorsKey(ep)] ==> r == 0.0
    ensures ErrorsKey(ep) !in data.metrics ==> r == 0.0
  {
    FirstTruthy([Lookup(MetricOr(data, ErrorsKey(ep), map["rate" := 0.0]), "rate")])
  }

  /** `(data.state.testRunDurationMs || 600000) / 1000`, never 0. */
  function DurationSeconds(data: SummaryData): (d: real)
    ensures d != 0.0
    ensures Truthy(data.testRunDurationMs) ==> d * 1000.0 == data.testRunDurationMs.value
    ensures !Truthy(data.testRunDurationMs) ==> d == 600.0
  {
    (if Truthy(data.testRunDurationMs) then data.testRunDurationMs.value else 600000.0) / 1000.0
  }

  /**
   * The counter's values: those under `route:ep` when their count is truthy,
   * else those under `route=ep` when recorded; failing both, the count read
   * is falsy.
   */
  function CounterValues(data: SummaryData, ep: string): (r: Values)
    ensures CounterKey(ep) in data.metrics && Truthy(Lookup(data.metrics[CounterKey(ep)], "count")) ==>
              r == data.metrics[CounterKey(ep)]
    ensures !(CounterKey(ep) in data.metrics && Truthy(Lookup(data.metrics[CounterKey(ep)], "count"))) ==>
              if CounterKeyAlt(ep) in data.metrics then r == data.metrics[CounterKeyAlt(ep)]
              else !Truthy(Lookup(r, "count"))
  {
    var first := MetricOr(data, CounterKey(ep), map["count" := 0.0]);
    if !Truthy(Lookup(first, "count")) then MetricOr(data, CounterKeyAlt(ep), map["count" := 0.0])
    else first
  }

  /**
   * The rps entry: a truthy endpoint count spread over the run's duration;
   * failing that, the `http_reqs` total spread over the duration and split
   * evenly over the endpoints; failing both, 0.
   */
  function Rps(data: SummaryData, ep: string): (r: real)
    ensures var count := Lookup(CounterValues(data, ep), "count");
            && (Truthy(count) ==> r * DurationSeconds(data) == count.value)
            && (!Truthy(count) && "http_reqs" !in data.metrics ==> r == 0.0)
            && (!Truthy(count) && "http_reqs" in data.metrics ==>
                  r * DurationSeconds(data) * (|Endpoints| as real)
                  == FirstTruthy([Lookup(data.metrics["http_reqs"], "count")]))
  {
    var count := Lookup(CounterValues(data, ep), "count");
    var rps := if Truthy(count) then count.value / DurationSeconds(data) else 0.0;
    if rps == 0.0 && "http_reqs" in data.metrics then
      FirstTruthy([Lookup(data.metrics["http_reqs"], "count")]) / DurationSeconds(data) / (|Endpoints| as real)
    else rps
  }

  /** The per-endpoint arrays, in endpoint order. */
  function Column(data: SummaryData, f: (SummaryData, string) -> real): (col: seq<real>)
    ensures |col| == |Endpoints|
    ensures forall i | 0 <= i < |Endpoints| :: col[i] == f(data, Endpoints[i])
  {
    seq(|Endpoints|, i requires 0 <= i < |Endpoints| => f(data, Endpoints[i]))
  }

  /** The report handleSummary builds: well shaped, for the run's environment and its five endpoints. */
  function Summarize(data: SummaryData): (b: BenchmarkResults)
    ensures WellShaped(b) && b.environment == RunEnvironment
    ensures b.latency.labels == b.throughput.labels == b.errorRate.labels == Endpoints
  {
    BenchmarkResults(
      Latency(Endpoints, Column(data, P50), Column(data, P95)),
      Throughput(Endpoints, Column(data, Rps)),
      ErrorRates(Endpoints, Column(data, ErrorRate)),
      RunEnvironment)
  }

  /**
   * Whatever the metrics, the report has its fixed shape: the label arrays
   * are the five endpoints, the environment is constant, and each number
   * array has one entry per endpoint, aligned with the labels.
   */
  lemma SummaryShape(data: SummaryData)
    ensures var b := Summarize(data);
            && WellShaped(b) && b.environment == RunEnvironment
            && b.latency.labels == ["list", "detail", "create", "update", "delete"]
            && forall i | 0 <= i < 5 ::
                 && b.latency.p50[i] == P50(data, b.latency.labels[i])
                 && b.latency.p95[i] == P95(data, b.latency.labels[i])
                 && b.throughput.rps[i] == Rps(data, b.throughput.labels[i])
                 && b.errorRate.rate[i] == ErrorRate(data, b.errorRate.labels[i])
  {
  }

  /** The p50 fallback chain: med, then p(90), then avg, then 0; missing and 0 alike are skipped. */
  lemma P50Fallback(data: SummaryData, ep: string)
    ensures var v := LatencyValues(data, ep);
            && (Truthy(Lookup(v, "med")) ==> P50(data, ep) == v["med"])
            && (!Truthy(Lookup(v, "med")) && Truthy(Lookup(v, "p(90)")) ==> P50(data, ep) == v["p(90)"])
            && (!Truthy(Lookup(v, "med")) && !Truthy(Lookup(v, "p(90)")) && Truthy(Lookup(v, "avg")) ==>
                  P50(data, ep) == v["avg"])
            && (!Truthy(Lookup(v, "med")) && !Truthy(Lookup(v, "p(90)")) && !Truthy(Lookup(v, "avg")) ==>
                  P50(data, ep) == 0.0)
  {
    var v := LatencyValues(data, ep);
    var chain := [Lookup(v, "med"), Lookup(v, "p(90)"), Lookup(v, "avg")];
    assert chain[0] == Lookup(v, "med") && chain[1] == Lookup(v, "p(90)") && chain[2] == Lookup(v, "avg");
  }

  /** A metric that is missing altogether reads as 0, never as an error. */
  lemma MissingMetricsReadZero(data: SummaryData, ep: string)
    requires LatencyKey(ep) !in data.metrics && ErrorsKey(ep) !in data.metrics
    ensures P50(data, ep) == 0.0 && P95(data, ep) == 0.0 && ErrorRate(data, ep) == 0.0
  {
    var v := LatencyValues(data, ep);
    assert Lookup(v, "med") == Some(0.0) && Lookup(v, "p(95)") == Some(0.0);
    assert "p(90)" !in v && "avg" !in v;
  }

  /**
   * The request count is taken under `requests{route:ep}` when truthy there,
   * else under `requests{route=ep}`; a truthy count gives count / duration.
   * With neither, `http_reqs` (when present) is split over the five
   * endpoints, and otherwise the entry is 0.
   */
  lemma RpsCases(data: SummaryData, ep: string)
    ensures var first := MetricOr(data, CounterKey(ep), map["count" := 0.0]);
            var alt := MetricOr(data, CounterKeyAlt(ep), map["count" := 0.0]);
            var d := DurationSeconds(data);
            && (Truthy(Lookup(first, "count")) ==> Rps(data, ep) == first["count"] / d)
            && (!Truthy(Lookup(first, "count")) && Truthy(Lookup(alt, "count")) ==> Rps(data, ep) == alt["count"] / d)
            && (!Truthy(Lookup(first, "count")) && !Truthy(Lookup(alt, "count")) ==>
                  Rps(data, ep) == if "http_reqs" in data.metrics
                                   then FirstTruthy([Lookup(data.metrics["http_reqs"], "count")]) / d / 5.0
                                   else 0.0)
  {
    var d := DurationSeconds(data);
    var count := Lookup(CounterValues(data, ep), "count");
    if Truthy(count) {
      assert count.value / d != 0.0;
    }
  }

  /** 6000 create requests over a 600 s run are 10 per second. */
  lemma CounterExample()
    ensures Rps(SummaryData(map["requests{route:create}" := map["count" := 6000.0]], Some(600000.0)), "create") == 10.0
  {
    var data := SummaryData(map["requests{route:create}" := map["count" := 6000.0]], Some(600000.0));
    assert CounterKey("create") == "requests{route:create}";
    assert Lookup(CounterValues(data, "create"), "count") == Some(6000.0);
  }

  /** Only the untagged total of 30000 requests and no duration: each endpoint gets 30000 / 600 / 5 = 10. */
  lemma HttpReqsExample(ep: string)
    ensures Rps(SummaryData(map["http_reqs" := map["count" := 30000.0]], None), ep) == 10.0
  {
    var data := SummaryData(map["http_reqs" := map["count" := 30000.0]], None);
    assert CounterKey(ep) != "http_reqs" by {
      assert CounterKey(ep)[0] == 'r';
    }
    assert CounterKeyAlt(ep) != "http_reqs" by {
      assert CounterKeyAlt(ep)[0] == 'r';
    }
    assert DurationSeconds(data) == 600.0;
  }

  /**
   * The forEach over the endpoint names, pushing one entry onto each array
   * of benchmarkResults per endpoint.
   */
  method HandleSummary(data: SummaryData) returns (results: BenchmarkResults)
    ensures results == Summarize(data)
    ensures WellShaped(results)
  {
    var endpointNames := ["list", "detail", "create", "update", "delete"];
    var latLabels, p50, p95 := [], [], [];
    var tpLabels, rps := [], [];
    var errLabels, rate := [], [];
    for k := 0 to |endpointNames|
      invariant latLabels == tpLabels == errLabels == endpointNames[..k]
      invariant |p50| == |p95| == |rps| == |rate| == k
      invariant forall i | 0 <= i < k ::
                  && p50[i] == P50(data, endpointNames[i]) && p95[i] == P95(data, endpointNames[i])
                  && rps[i] == Rps(data, endpointNames[i]) && rate[i] == ErrorRate(data, endpointNames[i])
    {
      var ep := endpointNames[k];
      var median, p95Value, r, errorRate := EndpointFigures(data, ep, |endpointNames|);
      latLabels, p50, p95 := latLabels + [ep], p50 + [median], p95 + [p95Value];
      tpLabels, rps := tpLabels + [ep], rps + [r];
      errLabels, rate := errLabels + [ep], rate + [errorRate];
    }
    results := BenchmarkResults(
      Latency(latLabels, p50, p95),
      Throughput(tpLabels, rps),
      ErrorRates(errLabels, rate),
      Environment(50, "10m", ["list", "detail", "create", "update", "delete"]));
  }

  /** The body of the forEach: the four figures of one endpoint, read from the metrics. */
  method EndpointFigures(data: SummaryData, ep: string, endpointCount: nat)
    returns (median: real, p95Value: real, r: real, errorRate: real)
    requires endpointCount == |Endpoints|
    ensures median == P50(data, ep) && p95Value == P95(data, ep)
    ensures r == Rps(data, ep) && errorRate == ErrorRate(data, ep)
  {
    var latM := LatencyValues(data, ep);
    median := FirstTruthy([Lookup(latM, "med"), Lookup(latM, "p(90)"), Lookup(latM, "avg")]);
    p95Value := FirstTruthy([Lookup(latM, "p(95)")]);

    var reqM := MetricOr(data, CounterKey(ep), map["count" := 0.0]);
    if !Truthy(Lookup(reqM, "count")) {
      reqM := MetricOr(data, CounterKeyAlt(ep), map["count" := 0.0]);
    }
    var testDurationSeconds := DurationSeconds(data);
    var count := Lookup(reqM, "count");
    r := if Truthy(count) then count.value / testDurationSeconds else 0.0;
    if r == 0.0 && "http_reqs" in data.metrics {
      var totalRequests := FirstTruthy([Lookup(data.metrics["http_reqs"], "count")]);
      r := totalRequests / testDurationSeconds / (endpointCount as real);
    }

    var errM := MetricOr(data, ErrorsKey(ep), map["rate" := 0.0]);
    errorRate := FirstTruthy([Lookup(errM, "rate")]);
  }
}
