/**
 * The shape of benchmark_results.json: what handleSummary in
 * benchmarks/benchmark.js writes after a run, and what every framework's
 * `benchmarks` block in website/app/lib/data.ts holds. Numbers are reals.
 */
module Results {

  /** The five endpoints, in the order every array of the report follows. */
  const Endpoints: seq<string> := ["list", "detail", "create", "update", "delete"]

  datatype Latency = Latency(labels: seq<string>, p50: seq<real>, p95: seq<real>)
  datatype Throughput = Throughput(labels: seq<string>, rps: seq<real>)
  datatype ErrorRates = ErrorRates(labels: seq<string>, rate: seq<real>)
  datatype Environment = Environment(vus: nat, duration: string, endpoints: seq<string>)

  datatype BenchmarkResults = BenchmarkResults(
    latency: Latency,
    throughput: Throughput,
    errorRate: ErrorRates,
    environment: Environment)

  /** The environment block handleSummary writes: 50 VUs at most, "10m", the five endpoints. */
  const RunEnvironment := Environment(50, "10m", Endpoints)

  /**
   * A report of the fixed shape: every label array is the endpoint list of
   * the environment, and every number array has one entry per endpoint.
   */
  predicate WellShaped(b: BenchmarkResults) {
    var n := |b.environment.endpoints|;
    && b.latency.labels == b.environment.endpoints
    && b.throughput.labels == b.environment.endpoints
    && b.errorRate.labels == b.environment.endpoints
    && |b.latency.p50| == n && |b.latency.p95| == n
    && |b.throughput.rps| == n && |b.errorRate.rate| == n
  }
}
