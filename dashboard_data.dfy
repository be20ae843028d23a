/**
 * The dashboard's data (website/app/lib/data.ts): the benchmark results of
 * each framework, grouped by language, and getAllFrameworks, which flattens
 * them into one record per framework with three derived figures: the mean
 * p50 latency, the largest p95 latency and the mean throughput.
 */
module DashboardData {
  import opened Wrappers
  import opened Results

  /** A framework as listed under its language. */
  datatype FrameworkEntry = FrameworkEntry(
    name: string,
    url: string,
    logo: string,
    logoFilter: Option<string>,
    description: string,
    codeBase: string,
    lastUpdated: string,
    benchmarks: BenchmarkResults)

  /** A record of getAllFrameworks. */
  datatype Framework = Framework(
    language: string,
    framework: string,
    benchmarks: BenchmarkResults,
    avgResponseTime: real,
    maxP95: real,
    avgRPS: real,
    logo: string,
    logoFilter: Option<string>,
    url: string,
    codeBase: string,
    description: string,
    lastUpdated: string)

  const GinResults := BenchmarkResults(
    Latency(Endpoints, [1.0034, 1.002, 1.0036, 1.0034, 1.0011], [1.0618, 1.04, 1.0626, 1.061, 1.0139]),
    Throughput(Endpoints, [1413.3336048853091, 1413.3336048853091, 1413.3336048853091, 1413.3336048853091, 1413.3336048853091]),
    ErrorRates(Endpoints, [0.0, 0.0, 0.0, 0.0, 0.0]),
    Environment(50, "10m", Endpoints))

  const EchoResults := BenchmarkResults(
    Latency(Endpoints, [0.5429, 0.5411, 0.5435, 0.5433, 0.5395], [0.5706, 0.5676, 0.5715, 0.5717, 0.5642]),
    Throughput(Endpoints, [1764.764909835097, 1764.764909835097, 1764.764909835097, 1764.764909835097, 1764.764909835097]),
    ErrorRates(Endpoints, [0.0, 0.0, 0.0, 0.0, 0.0]),
    Environment(50, "10m", Endpoints))

  const Gin := FrameworkEntry(
    "Gin", "https://gin-gonic.com",
    "https://raw.githubusercontent.com/gin-gonic/logo/master/color.png", None,
    "Gin is a high-performance HTTP web framework written in Golang.",
    "https://github.com/ge0rg3e/speedalyze/tree/main/benchmarks/golang/gin",
    "2025-04-18", GinResults)

  const Echo := FrameworkEntry(
    "Echo", "https://echo.labstack.com",
    "https://avatars.githubusercontent.com/u/2624634?v=4", None,
    "Echo is a high-performance, extensible, and minimalist web framework for Go.",
    "https://github.com/ge0rg3e/speedalyze/tree/main/benchmarks/golang/echo",
    "2025-04-18", EchoResults)

  /** frameworkData, as Object.entries yields it: its languages in key order, each with its frameworks. */
  const FrameworkData: seq<(string, seq<FrameworkEntry>)> := [("golang", [Gin, Echo])]

  /** A benchmarks block of the shape handleSummary writes, with the same throughput on every endpoint. */
  predicate ReportShaped(b: BenchmarkResults) {
    && WellShaped(b)
    && b.environment == RunEnvironment
    && b.latency.labels == Endpoints
    && forall i | 0 <= i < |b.throughput.rps| :: b.throughput.rps[i] == b.throughput.rps[0]
  }

  /** Every block the dashboard ships is report-shaped: five aligned entries per array, the run's environment, one rps figure. */
  lemma FrameworkDataShaped()
    ensures forall l | 0 <= l < |FrameworkData| ::
              forall k | 0 <= k < |FrameworkData[l].1| :: ReportShaped(FrameworkData[l].1[k].benchmarks)
  {
    assert ReportShaped(GinResults);
    assert ReportShaped(EchoResults);
  }

  function Sum(s: seq<real>): real {
    if s == [] then 0.0 else s[0] + Sum(s[1..])
  }

  /**
   * `s.reduce((acc, val) => acc + val, 0) / s.length`: the value that, taken
   * once per entry, gives the sum (MeanWithinRange bounds it).
   */
  function Mean(s: seq<real>): (m: real)
    requires |s| > 0
    ensures m * (|s| as real) == Sum(s)
  {
    Sum(s) / (|s| as real)
  }

  /** `Math.max(...s)`: an entry of s that no entry exceeds. */
  function Max(s: seq<real>): (m: real)
    requires |s| > 0
    ensures m in s
    ensures forall i | 0 <= i < |s| :: s[i] <= m
  {
    if |s| == 1 then s[0]
    else
      var rest := Max(s[1..]);
      if s[0] >= rest then s[0] else rest
  }

  lemma {:induction false} SumAtMost(s: seq<real>, bound: real)
    requires forall i | 0 <= i < |s| :: s[i] <= bound
    ensures Sum(s) <= (|s| as real) * bound
    decreases |s|
  {
    if s != [] {
      SumAtMost(s[1..], bound);
    }
  }

  lemma {:induction false} SumAtLeast(s: seq<real>, bound: real)
    requires forall i | 0 <= i < |s| :: bound <= s[i]
    ensures (|s| as real) * bound <= Sum(s)
    decreases |s|
  {
    if s != [] {
      SumAtLeast(s[1..], bound);
    }
  }

  /** A mean lies within the range of its entries; in particular the mean p50 never exceeds the largest. */
  lemma MeanWithinRange(s: seq<real>)
    requires |s| > 0
    ensures MinOf(s) <= Mean(s) <= Max(s)
  {
    MeanBounds(s, MinOf(s), Max(s));
  }

  lemma MeanBounds(s: seq<real>, lo: real, hi: real)
    requires |s| > 0
    requires forall i | 0 <= i < |s| :: lo <= s[i] <= hi
    ensures lo <= Mean(s) <= hi
  {
    SumAtMost(s, hi);
    SumAtLeast(s, lo);
    Quotient(Sum(s), |s| as real, lo, hi);
  }

  lemma Quotient(a: real, n: real, lo: real, hi: real)
    requires n > 0.0 && n * lo <= a <= n * hi
    ensures lo <= a / n <= hi
    ensures (a / n) * n == a
  {
    assert a == n * (a / n);
  }

  /** The smallest entry: some entry below every other. */
  function MinOf(s: seq<real>): (m: real)
    requires |s| > 0
    ensures m in s
    ensures forall i | 0 <= i < |s| :: m <= s[i]
  {
    if |s| == 1 then s[0]
    else
      var rest := MinOf(s[1..]);
      if s[0] <= rest then s[0] else rest
  }

  /** ASCII upper-casing of one character, as toUpperCase does for the ASCII range. */
  function UpperAscii(c: char): char {
    if 'a' <= c <= 'z' then (c as int - 32) as char else c
  }

  /**
   * The language label: "Node.js" for "node", otherwise the key with its first
   * character upper-cased and the rest kept.
   */
  function LanguageLabel(language: string): (shown: string)
    ensures language == "node" ==> shown == "Node.js"
    ensures language != "node" ==> |shown| == |language|
    ensures language != "node" && language != "" ==> shown[1..] == language[1..]
    ensures language != "node" && language != "" ==> shown[0] == UpperAscii(language[0])
  {
    if language == "node" then "Node.js"
    else if language == "" then ""
    else [UpperAscii(language[0])] + language[1..]
  }

  /** The key "golang" is shown as "Golang" (not "Go"). */
  lemma GolangLabel()
    ensures LanguageLabel("golang") == "Golang"
  {
    assert "golang"[1..] == "olang";
  }

  predicate HasFigures(e: FrameworkEntry) {
    |e.benchmarks.latency.p50| > 0 && |e.benchmarks.latency.p95| > 0 && |e.benchmarks.throughput.rps| > 0
  }

  /** The pushed record: the label, the copied fields and the three figures. */
  function ToFramework(language: string, e: FrameworkEntry): (f: Framework)
    requires HasFigures(e)
    ensures f.language == LanguageLabel(language) && f.framework == e.name && f.benchmarks == e.benchmarks
    ensures f.avgResponseTime == Mean(e.benchmarks.latency.p50)
    ensures f.maxP95 in e.benchmarks.latency.p95
    ensures forall i | 0 <= i < |e.benchmarks.latency.p95| :: e.benchmarks.latency.p95[i] <= f.maxP95
    ensures f.avgRPS == Mean(e.benchmarks.throughput.rps)
    ensures (f.logo, f.logoFilter, f.url, f.codeBase, f.description, f.lastUpdated)
            == (e.logo, e.logoFilter, e.url, e.codeBase, e.description, e.lastUpdated)
  {
    Framework(
      LanguageLabel(language), e.name, e.benchmarks,
      Mean(e.benchmarks.latency.p50), Max(e.benchmarks.latency.p95), Mean(e.benchmarks.throughput.rps),
      e.logo, e.logoFilter, e.url, e.codeBase, e.description, e.lastUpdated)
  }

  predicate AllHaveFigures(data: seq<(string, seq<FrameworkEntry>)>) {
    forall l | 0 <= l < |data| :: forall k | 0 <= k < |data[l].1| :: HasFigures(data[l].1[k])
  }

  /** One language's records, in array order. */
  function Block(language: string, frameworks: seq<FrameworkEntry>): (b: seq<Framework>)
    requires forall k | 0 <= k < |frameworks| :: HasFigures(frameworks[k])
    ensures |b| == |frameworks|
    ensures forall k | 0 <= k < |frameworks| :: b[k] == ToFramework(language, frameworks[k])
  {
    seq(|frameworks|, k requires 0 <= k < |frameworks| => ToFramework(language, frameworks[k]))
  }

  /** The labels of the languages the data lists. */
  function LabelsOf(data: seq<(string, seq<FrameworkEntry>)>): set<string> {
    set l | 0 <= l < |data| :: LanguageLabel(data[l].0)
  }

  /**
   * The records of all languages, language after language; each record
   * carries the label of a language the data lists.
   */
  function AllFrameworks(data: seq<(string, seq<FrameworkEntry>)>): (r: seq<Framework>)
    requires AllHaveFigures(data)
    ensures forall i | 0 <= i < |r| :: r[i].language in LabelsOf(data)
  {
    if data == [] then []
    else
      var n := |data| - 1;
      assert AllHaveFigures(data[..n]);
      assert LabelsOf(data[..n]) <= LabelsOf(data) by {
        forall l | 0 <= l < n ensures LanguageLabel(data[..n][l].0) in LabelsOf(data) {
          assert data[..n][l] == data[l];
        }
      }
      assert LanguageLabel(data[n].0) in LabelsOf(data);
      AllFrameworks(data[..n]) + Block(data[n].0, data[n].1)
  }

  /** The total number of frameworks listed. */
  function Count(data: seq<(string, seq<FrameworkEntry>)>): nat {
    if data == [] then 0 else Count(data[..|data| - 1]) + |data[|data| - 1].1|
  }

  /**
   * One record per framework: the k-th framework of the l-th language is at
   * the position of all earlier languages' frameworks plus k.
   */
  lemma {:induction false} AllFrameworksLayout(data: seq<(string, seq<FrameworkEntry>)>, l: nat, k: nat)
    requires AllHaveFigures(data)
    requires l < |data| && k < |data[l].1|
    ensures |AllFrameworks(data)| == Count(data)
    ensures Count(data[..l]) + k < Count(data)
    ensures AllFrameworks(data)[Count(data[..l]) + k] == ToFramework(data[l].0, data[l].1[k])
    decreases |data|
  {
    var n := |data| - 1;
    var init := data[..n];
    assert AllHaveFigures(init);
    if l < n {
      AllFrameworksLayout(init, l, k);
      assert init[..l] == data[..l];
    } else {
      LayoutLength(init);
      assert data[..l] == init;
    }
  }

  /** One flattened record per framework of the data. */
  lemma {:induction false} LayoutLength(data: seq<(string, seq<FrameworkEntry>)>)
    requires AllHaveFigures(data)
    ensures |AllFrameworks(data)| == Count(data)
    decreases |data|
  {
    if data != [] {
      var init := data[..|data| - 1];
      assert AllHaveFigures(init);
      LayoutLength(init);
    }
  }

  /** getAllFrameworks: Object.entries(frameworkData).forEach, pushing each language's records in turn. */
  method GetAllFrameworks(data: seq<(string, seq<FrameworkEntry>)>) returns (all: seq<Framework>)
    requires AllHaveFigures(data)
    ensures all == AllFrameworks(data)
  {
    all := [];
    for l := 0 to |data|
      invariant AllHaveFigures(data[..l])
      invariant all == AllFrameworks(data[..l])
    {
      var (language, frameworks) := data[l];
      all := PushLanguage(all, language, frameworks);
      assert data[..l + 1][..l] == data[..l];
    }
    assert data[..|data|] == data;
  }

  /** The inner `frameworks.forEach`: one record per framework of a language, pushed in order. */
  method PushLanguage(all: seq<Framework>, language: string, frameworks: seq<FrameworkEntry>) returns (all': seq<Framework>)
    requires forall k | 0 <= k < |frameworks| :: HasFigures(frameworks[k])
    ensures all' == all + Block(language, frameworks)
  {
    all' := all;
    for k := 0 to |frameworks|
      invariant all' == all + Block(language, frameworks[..k])
    {
      var framework := frameworks[k];
      var avgResponseTime := Mean(framework.benchmarks.latency.p50);
      var maxP95 := Max(framework.benchmarks.latency.p95);
      var avgRPS := Mean(framework.benchmarks.throughput.rps);
      all' := all' + [Framework(
        LanguageLabel(language), framework.name, framework.benchmarks,
        avgResponseTime, maxP95, avgRPS,
        framework.logo, framework.logoFilter, framework.url, framework.codeBase,
        framework.description, framework.lastUpdated)];
      assert Block(language, frameworks[..k + 1]) == Block(language, frameworks[..k]) + [ToFramework(language, framework)];
    }
    assert frameworks[..|frameworks|] == frameworks;
  }

  /** `frameworks.map(f => f.language)` */
  function LanguagesOf(all: seq<Framework>): (r: seq<string>)
    ensures |r| == |all| && forall i | 0 <= i < |all| :: r[i] == all[i].language
  {
    seq(|all|, i requires 0 <= i < |all| => all[i].language)
  }

  /** The shipped data: Gin's mean p50 is 1.0027 ms and Echo's 0.54206 ms. */
  lemma ShippedFigures()
    ensures Mean(GinResults.latency.p50) == 1.0027
    ensures Mean(EchoResults.latency.p50) == 0.54206
    ensures AllHaveFigures(FrameworkData)
  {
    MeanOfFive(1.0034, 1.002, 1.0036, 1.0034, 1.0011);
    MeanOfFive(0.5429, 0.5411, 0.5435, 0.5433, 0.5395);
  }

  /** The mean of the five endpoint figures of a report. */
  lemma MeanOfFive(a: real, b: real, c: real, d: real, e: real)
    ensures Mean([a, b, c, d, e]) == (a + b + c + d + e) / 5.0
  {
    assert [e][1..] == [] && Sum([e]) == e;
    assert [d, e][1..] == [e] && Sum([d, e]) == d + e;
    assert [c, d, e][1..] == [d, e] && Sum([c, d, e]) == c + d + e;
    assert [b, c, d, e][1..] == [c, d, e] && Sum([b, c, d, e]) == b + c + d + e;
    assert [a, b, c, d, e][1..] == [b, c, d, e];
  }
}
