/**
 * The result-publishing helpers of smoltrace/utils.py: the dataset names of a run,
 * the leaderboard row computed from the results, traces and metrics, the flat rows of
 * the results dataset, and the append step of the leaderboard update.
 */
module Leaderboard {
  import opened Wrappers
  import opened Text
  import opened Python
  import opened Seqs
  import opened OrderedDict
  import opened Clock
  import opened Traces
  import opened Scoring
  import Collector
  import Gpu

  // ---------------------------------------------------------------------------
  // generate_dataset_names
  // ---------------------------------------------------------------------------

  datatype DatasetNames = DatasetNames(results: string, traces: string, metrics: string, leaderboard: string)

  /** `generate_dataset_names(username)`, with the clock reading `now` as a parameter. */
  function GenerateDatasetNames(username: string, now: DateTime): DatasetNames
  {
    var ts := Compact(now);
    DatasetNames(
      username + "/smoltrace-results-" + ts,
      username + "/smoltrace-traces-" + ts,
      username + "/smoltrace-metrics-" + ts,
      username + "/smoltrace-leaderboard")
  }

  /**
   * The four names are pairwise different, all start with `username/smoltrace-`, and
   * the three per-run names end with one shared fifteen-character timestamp.
   */
  lemma DatasetNamesShape(username: string, now: DateTime)
    requires Valid(now)
    ensures var n := GenerateDatasetNames(username, now);
      && n.results != n.traces && n.results != n.metrics && n.results != n.leaderboard
      && n.traces != n.metrics && n.traces != n.leaderboard && n.metrics != n.leaderboard
      && n.leaderboard == username + "/smoltrace-leaderboard"
      && n.results[|n.results| - 15..] == n.traces[|n.traces| - 15..] == n.metrics[|n.metrics| - 15..] == Compact(now)
  {
    CompactShape(now);
    var n := GenerateDatasetNames(username, now);
    var u := |username|;
    assert n.results[u + 11] == 'r' && n.traces[u + 11] == 't';
    assert n.metrics[u + 11] == 'm' && n.leaderboard[u + 11] == 'l';
    assert n.results[|n.results| - 15..] == Compact(now);
    assert n.traces[|n.traces| - 15..] == Compact(now);
    assert n.metrics[|n.metrics| - 15..] == Compact(now);
  }

  /** Different users, or runs started in different seconds, get different results datasets. */
  lemma DatasetNamesInjective(u1: string, t1: DateTime, u2: string, t2: DateTime)
    requires Valid(t1) && Valid(t2)
    requires GenerateDatasetNames(u1, t1).results == GenerateDatasetNames(u2, t2).results
    ensures u1 == u2 && Compact(t1) == Compact(t2)
    ensures t1.year == t2.year && t1.month == t2.month && t1.day == t2.day
    ensures t1.hour == t2.hour && t1.minute == t2.minute && t1.second == t2.second
  {
    CompactShape(t1);
    CompactShape(t2);
    var r := GenerateDatasetNames(u1, t1).results;
    assert |u1| == |u2|;
    assert r[..|u1|] == u1;
    assert GenerateDatasetNames(u2, t2).results[..|u2|] == u2;
    assert r[|r| - 15..] == Compact(t1);
    assert GenerateDatasetNames(u2, t2).results[|r| - 15..] == Compact(t2);
    CompactInjective(t1, t2);
  }

  // ---------------------------------------------------------------------------
  // compute_leaderboard_row: inputs and lenient conversions
  // ---------------------------------------------------------------------------

  /** The identifying arguments of `compute_leaderboard_row`. */
  datatype RunArgs = RunArgs(
    modelName: string,
    datasetUsed: string,
    resultsDataset: string,
    tracesDataset: string,
    metricsDataset: string,
    agentType: string,
    runId: Option<string>,
    provider: string)

  /**
   * The metric data when it is a dict: its `aggregates` (the collector's metric
   * dictionaries) and its `resourceMetrics`, each absent or present.
   */
  datatype MetricData = MetricData(aggregates: Option<seq<Collector.Metric>>, resourceMetrics: Option<seq<Gpu.ResourceMetrics>>)

  const Co2Name: string := "gen_ai.co2.emissions"

  /** A value Python can add to a number: ints, booleans and floats. */
  function Number(v: PyValue): (r: Option<real>)
    ensures r.Some? <==> v.PyInt? || v.PyBool? || v.PyFloat?
  {
    match v
    case PyInt(i) => Some(i as real)
    case PyBool(b) => Some(if b then 1.0 else 0.0)
    case PyFloat(x) => Some(x)
    case _ => None
  }

  /**
   * A trace's `total_tokens` as added to the total: 0 when absent, `int()` of a string
   * or 0 when that fails, the value itself otherwise; `None` when it cannot be added.
   */
  function TokenTerm(v: Option<PyValue>): (r: Option<real>)
    ensures r.None? <==> v.Some? && !v.value.PyStr? && Number(v.value).None?
  {
    if v.None? then Some(0.0)
    else if v.value.PyStr? then Some(match ParseInt(v.value.s) case Some(i) => i as real case None => 0.0)
    else Number(v.value)
  }

  /** The same for `total_duration_ms` and `total_cost_usd`, whose strings go through `float()`. */
  function FloatTerm(v: Option<PyValue>): (r: Option<real>)
    ensures r.None? <==> v.Some? && !v.value.PyStr? && Number(v.value).None?
  {
    if v.None? then Some(0.0)
    else if v.value.PyStr? then Some(ParseFloat(v.value.s).GetOr(0.0))
    else Number(v.value)
  }

  /** The text of an integer adds that integer, a text that is not a number adds nothing. */
  lemma TermsOfText(i: int, s: string)
    ensures TokenTerm(Some(PyStr(IntToString(i)))) == Some(i as real)
    ensures FloatTerm(Some(PyStr(IntToString(i)))) == Some(i as real)
    ensures ParseInt(s).None? ==> TokenTerm(Some(PyStr(s))) == Some(0.0)
    ensures ParseFloat(s).None? ==> FloatTerm(Some(PyStr(s))) == Some(0.0)
  {
    ParseIntOfIntToString(i);
    ParseFloatOfIntToString(i);
  }

  /** The three trace totals. */
  datatype Totals = Totals(tokens: real, durationMs: real, costUsd: real)

  const NoTotals: Totals := Totals(0.0, 0.0, 0.0)

  /** A trace whose totals cannot all be added: the loop raises `TypeError` on it. */
  predicate Unaddable(t: Trace)
  {
    TokenTerm(t.totalTokens).None? || FloatTerm(t.totalDurationMs).None? || FloatTerm(t.totalCostUsd).None?
  }

  /** One turn of the trace loop. */
  function TraceStep(acc: Totals, t: Trace): Result<Totals>
  {
    if Unaddable(t) then Failure("unsupported operand type for +=")
    else Success(Totals(acc.tokens + TokenTerm(t.totalTokens).value,
                        acc.durationMs + FloatTerm(t.totalDurationMs).value,
                        acc.costUsd + FloatTerm(t.totalCostUsd).value))
  }

  /** The totals over the traces. */
  function TraceTotals(traces: seq<Trace>): Result<Totals>
  {
    Fold(NoTotals, traces, TraceStep)
  }

  /** Starting from other totals shifts the outcome by them; failure does not depend on them. */
  lemma {:induction false} TraceTotalsShift(acc: Totals, traces: seq<Trace>)
    ensures Fold(acc, traces, TraceStep).Success? <==> Fold(NoTotals, traces, TraceStep).Success?
    ensures Fold(acc, traces, TraceStep).Success? ==>
      var a, z := Fold(acc, traces, TraceStep).value, Fold(NoTotals, traces, TraceStep).value;
      a.tokens == acc.tokens + z.tokens && a.durationMs == acc.durationMs + z.durationMs && a.costUsd == acc.costUsd + z.costUsd
    decreases |traces|
  {
    if traces != [] {
      TraceTotalsShift(acc, traces[..|traces| - 1]);
    }
  }

  /** The totals are sums over the traces: those of two runs of traces add up. */
  lemma TraceTotalsConcat(a: seq<Trace>, b: seq<Trace>)
    ensures TraceTotals(a + b).Success? <==> TraceTotals(a).Success? && TraceTotals(b).Success?
    ensures TraceTotals(a + b).Success? ==>
      var ab, ta, tb := TraceTotals(a + b).value, TraceTotals(a).value, TraceTotals(b).value;
      ab.tokens == ta.tokens + tb.tokens && ab.durationMs == ta.durationMs + tb.durationMs && ab.costUsd == ta.costUsd + tb.costUsd
  {
    FoldConcat(NoTotals, a, b, TraceStep);
    if TraceTotals(a).Success? {
      TraceTotalsShift(TraceTotals(a).value, b);
    }
  }

  /** The trace loop raises exactly when some trace has a total that cannot be added. */
  lemma {:induction false} TraceTotalsFails(traces: seq<Trace>)
    ensures TraceTotals(traces).Failure? <==> exists i :: 0 <= i < |traces| && Unaddable(traces[i])
    decreases |traces|
  {
    if traces != [] {
      var init := traces[..|traces| - 1];
      TraceTotalsFails(init);
      if exists i :: 0 <= i < |traces| && Unaddable(traces[i]) {
        var i :| 0 <= i < |traces| && Unaddable(traces[i]);
        if i < |init| {
          assert init[i] == traces[i];
        }
      } else {
        forall i | 0 <= i < |init| ensures !Unaddable(init[i]) {
          assert init[i] == traces[i];
        }
      }
    }
  }

  // ---------------------------------------------------------------------------
  // CO2, GPU and the results
  // ---------------------------------------------------------------------------

  /** A data point's `value.value` as added to the CO2 total (0 when absent). */
  function Co2Term(dp: Collector.DataPoint): Option<real>
  {
    var v := Get(dp.value, "value").GetOr(PyInt(0));
    if v.PyStr? then Some(ParseFloat(v.s).GetOr(0.0)) else Number(v)
  }

  function Co2PointStep(total: real, dp: Collector.DataPoint): Result<real>
  {
    match Co2Term(dp)
    case None => Failure("unsupported operand type for +=")
    case Some(x) => Success(total + x)
  }

  /** An aggregate named `gen_ai.co2.emissions` adds its data points; others add nothing. */
  function Co2Step(total: real, m: Collector.Metric): Result<real>
  {
    if m.name == Co2Name then Fold(total, m.dataPoints, Co2PointStep) else Success(total)
  }

  /** The CO2 total: 0 unless the metric data is a dict with `aggregates`. */
  function Co2Total(md: Option<MetricData>): Result<real>
  {
    if md.None? || md.value.aggregates.None? then Success(0.0)
    else Fold(0.0, md.value.aggregates.value, Co2Step)
  }

  lemma {:induction false} Co2SkipsOthers(ms: seq<Collector.Metric>)
    requires forall i :: 0 <= i < |ms| ==> ms[i].name != Co2Name
    ensures Fold(0.0, ms, Co2Step) == Success(0.0)
    decreases |ms|
  {
    if ms != [] {
      Co2SkipsOthers(ms[..|ms| - 1]);
    }
  }

  /**
   * Fed the collector's own metrics as aggregates, the row's CO2 is the collector's
   * estimate: 0.0004 g per thousand tokens, or 0 without tokens.
   */
  lemma Co2OfCollectedMetrics(t: Collector.Tally, rms: Option<seq<Gpu.ResourceMetrics>>)
    ensures Co2Total(Some(MetricData(Some(Collector.MetricsOf(t)), rms))) ==
      Success(if t.tokens > 0 then t.tokens as real / 1000.0 * 0.0004 else 0.0)
  {
    var ms := Collector.MetricsOf(t);
    var init := ms[..5];
    forall i | 0 <= i < |init| ensures init[i].name != Co2Name {
      assert init[i] == ms[i];
    }
    Co2SkipsOthers(init);
    assert Fold(0.0, ms, Co2Step) == Co2Step(0.0, ms[5]);
    var dps := ms[5].dataPoints;
    assert dps[..|dps| - 1] == [];
    assert Fold(0.0, dps, Co2PointStep) == Co2PointStep(0.0, dps[0]);
    var co2 := dps[0].value[0].1;
    assert Get(dps[0].value, "value") == Some(co2);
    assert co2 == if t.tokens > 0 then PyFloat(t.tokens as real / 1000.0 * 0.0004) else PyInt(0);
  }

  /** The GPU summary: the aggregate when the metric data has `resourceMetrics`, else all `None`. */
  function GpuOf(md: Option<MetricData>): Result<Gpu.GpuSummary>
  {
    if md.None? || md.value.resourceMetrics.None? then Success(Gpu.NoGpu)
    else Gpu.Aggregated(md.value.resourceMetrics.value)
  }

  /** The tool and code results for `both`, else the results of that agent type. */
  function SelectedResults(allResults: Dict<string, seq<TestResult>>, agentType: string): seq<TestResult>
  {
    if agentType != "both" then Get(allResults, agentType).GetOr([])
    else Get(allResults, "tool").GetOr([]) + Get(allResults, "code").GetOr([])
  }

  /** `sum(1 for r in results if r["success"])`. */
  function Successes(results: seq<TestResult>): (r: nat)
    ensures r <= |results|
    decreases |results|
  {
    if results == [] then 0
    else Successes(results[..|results| - 1]) + (if results[|results| - 1].success then 1 else 0)
  }

  /** `sum(r["steps"] for r in results)`. */
  function StepsTotal(results: seq<TestResult>): nat
    decreases |results|
  {
    if results == [] then 0 else StepsTotal(results[..|results| - 1]) + results[|results| - 1].steps
  }

  /** Successes are counted per result: those of two lists add up. */
  lemma {:induction false} SuccessesConcat(a: seq<TestResult>, b: seq<TestResult>)
    ensures Successes(a + b) == Successes(a) + Successes(b)
    decreases |b|
  {
    if b == [] {
      assert a + b == a;
    } else {
      var init := b[..|b| - 1];
      assert (a + b)[..|a + b| - 1] == a + init;
      SuccessesConcat(a, init);
    }
  }

  // ---------------------------------------------------------------------------
  // The row
  // ---------------------------------------------------------------------------

  /** The leaderboard row (unrounded). */
  datatype LeaderboardRow = LeaderboardRow(
    runId: Option<string>,
    model: string,
    agentType: string,
    provider: string,
    evaluationDate: string,
    submittedBy: string,
    resultsDataset: string,
    tracesDataset: string,
    metricsDataset: string,
    datasetUsed: string,
    numTests: nat,
    successfulTests: nat,
    failedTests: int,
    successRate: real,
    avgSteps: real,
    avgDurationMs: real,
    totalDurationMs: real,
    totalTokens: real,
    avgTokensPerTest: int,
    totalCostUsd: real,
    avgCostPerTestUsd: real,
    co2EmissionsG: real,
    gpu: Gpu.GpuSummary,
    notes: string)

  /** `x / n if n > 0 else 0`. */
  function PerTest(x: real, n: nat): real
  {
    if n > 0 then x / n as real else 0.0
  }

  /** `avg` is the average of `total` over `n` tests: times `n` it gives back the total. */
  predicate IsAverage(avg: real, total: real, n: nat)
  {
    n > 0 ==> avg * n as real == total
  }

  /** `rate` is the percentage that `part` is of `n` tests. */
  predicate IsPercentage(rate: real, part: real, n: nat)
  {
    n > 0 ==> rate * n as real == part * 100.0
  }

  /** An average times the number of tests gives back the total. */
  lemma PerTestTimes(x: real, n: nat)
    ensures IsAverage(PerTest(x, n), x, n)
  {
  }

  /** The share of a part that is at most the whole lies between 0 and 1, and a hundred times it is a percentage. */
  lemma PerTestShare(x: real, n: nat)
    requires 0.0 <= x <= n as real
    ensures 0.0 <= PerTest(x, n) <= 1.0
    ensures 0.0 <= PerTest(x, n) * 100.0 <= 100.0
    ensures IsPercentage(PerTest(x, n) * 100.0, x, n)
  {
    if n > 0 {
      PerTestTimes(x, n);
      assert PerTest(x, n) * 100.0 * n as real == PerTest(x, n) * n as real * 100.0;
    }
  }

  /** The row built from the selected results, the totals, the CO2, the GPU summary and the clock. */
  function RowOf(args: RunArgs, results: seq<TestResult>, totals: Totals, co2: real, gpu: Gpu.GpuSummary,
                 submittedBy: string, now: DateTime): LeaderboardRow
  {
    var n := |results|;
    var successful := Successes(results);
    LeaderboardRow(
      args.runId, args.modelName, args.agentType, args.provider, IsoFormat(now), submittedBy,
      args.resultsDataset, args.tracesDataset, args.metricsDataset, args.datasetUsed,
      n, successful, n - successful,
      PerTest(successful as real, n) * 100.0,
      PerTest(StepsTotal(results) as real, n),
      PerTest(totals.durationMs, n),
      totals.durationMs,
      totals.tokens,
      Trunc(PerTest(totals.tokens, n)),
      totals.costUsd,
      PerTest(totals.costUsd, n),
      co2,
      gpu,
      "Evaluation on " + Date(now) + "; " + IntToString(n) + " tests")
  }

  /** `compute_leaderboard_row(...)` as a value. */
  function LeaderboardRowOf(args: RunArgs, allResults: Dict<string, seq<TestResult>>, traceData: seq<Trace>,
                            metricData: Option<MetricData>, submittedBy: string, now: DateTime): Result<LeaderboardRow>
  {
    var results := SelectedResults(allResults, args.agentType);
    match TraceTotals(traceData)
    case Failure(e) => Failure(e)
    case Success(totals) =>
      match Co2Total(metricData)
      case Failure(e) => Failure(e)
      case Success(co2) =>
        match GpuOf(metricData)
        case Failure(e) => Failure(e)
        case Success(gpu) => Success(RowOf(args, results, totals, co2, gpu, submittedBy, now))
  }

  /** The row is built from the three partial results, and fails when one of them fails. */
  lemma RowOfParts(args: RunArgs, allResults: Dict<string, seq<TestResult>>, traceData: seq<Trace>,
                   metricData: Option<MetricData>, submittedBy: string, now: DateTime)
    ensures LeaderboardRowOf(args, allResults, traceData, metricData, submittedBy, now).Success? <==>
      TraceTotals(traceData).Success? && Co2Total(metricData).Success? && GpuOf(metricData).Success?
    ensures LeaderboardRowOf(args, allResults, traceData, metricData, submittedBy, now).Success? ==>
      LeaderboardRowOf(args, allResults, traceData, metricData, submittedBy, now).value ==
        RowOf(args, SelectedResults(allResults, args.agentType), TraceTotals(traceData).value,
              Co2Total(metricData).value, GpuOf(metricData).value, submittedBy, now)
  {
  }

  /**
   * The counts: successes and failures add up to the tests, and the success rate is
   * the percentage of successes.
   */
  lemma RowCounts(args: RunArgs, results: seq<TestResult>, totals: Totals, co2: real, gpu: Gpu.GpuSummary,
                  submittedBy: string, now: DateTime)
    ensures var row := RowOf(args, results, totals, co2, gpu, submittedBy, now);
      && row.numTests == |results|
      && row.successfulTests == Successes(results)
      && row.successfulTests + row.failedTests == row.numTests
      && 0 <= row.failedTests
      && 0.0 <= row.successRate <= 100.0
      && IsPercentage(row.successRate, row.successfulTests as real, row.numTests)
  {
    PerTestShare(Successes(results) as real, |results|);
  }

  /** With no tests every average and the success rate are 0. */
  lemma RowWithoutTests(args: RunArgs, totals: Totals, co2: real, gpu: Gpu.GpuSummary, submittedBy: string, now: DateTime)
    ensures var row := RowOf(args, [], totals, co2, gpu, submittedBy, now);
      && row.numTests == 0 && row.successRate == 0.0 && row.avgSteps == 0.0 && row.avgDurationMs == 0.0
      && row.avgTokensPerTest == 0 && row.avgCostPerTestUsd == 0.0
  {
    assert Trunc(0.0) == 0;
  }

  /** The row's totals are the trace totals, and its averages divide them by the tests. */
  lemma RowTotals(args: RunArgs, results: seq<TestResult>, totals: Totals, co2: real, gpu: Gpu.GpuSummary,
                  submittedBy: string, now: DateTime)
    ensures var row := RowOf(args, results, totals, co2, gpu, submittedBy, now);
      && row.totalTokens == totals.tokens && row.totalDurationMs == totals.durationMs && row.totalCostUsd == totals.costUsd
      && row.co2EmissionsG == co2 && row.gpu == gpu
      && IsAverage(row.avgDurationMs, totals.durationMs, row.numTests)
      && IsAverage(row.avgCostPerTestUsd, totals.costUsd, row.numTests)
      && IsAverage(row.avgSteps, StepsTotal(results) as real, row.numTests)
      && (row.numTests > 0 ==> row.avgTokensPerTest == Trunc(totals.tokens / row.numTests as real))
  {
    PerTestTimes(totals.durationMs, |results|);
    PerTestTimes(totals.costUsd, |results|);
    PerTestTimes(StepsTotal(results) as real, |results|);
  }

  /** For `both` the successes of the tool and the code results add up. */
  lemma SelectedResultsCount(allResults: Dict<string, seq<TestResult>>)
    ensures Successes(SelectedResults(allResults, "both")) ==
      Successes(Get(allResults, "tool").GetOr([])) + Successes(Get(allResults, "code").GetOr([]))
    ensures |SelectedResults(allResults, "both")| ==
      |Get(allResults, "tool").GetOr([])| + |Get(allResults, "code").GetOr([])|
  {
    SuccessesConcat(Get(allResults, "tool").GetOr([]), Get(allResults, "code").GetOr([]));
  }

  // ---------------------------------------------------------------------------
  // The row computation
  // ---------------------------------------------------------------------------

  /** `compute_leaderboard_row(...)`; the user lookup's outcome is passed in as `submittedBy`. */
  method ComputeLeaderboardRow(args: RunArgs, allResults: Dict<string, seq<TestResult>>, traceData: seq<Trace>,
                               metricData: Option<MetricData>, submittedBy: string, now: DateTime)
    returns (r: Result<LeaderboardRow>)
    ensures r.Success? <==> LeaderboardRowOf(args, allResults, traceData, metricData, submittedBy, now).Success?
    ensures r.Success? ==> r == LeaderboardRowOf(args, allResults, traceData, metricData, submittedBy, now)
  {
    var results := SelectedResults(allResults, args.agentType);
    var totals := SumTraceTotals(traceData);
    if totals.Failure? {
      return Failure(totals.error);
    }
    var co2 := SumCo2(metricData);
    if co2.Failure? {
      return Failure(co2.error);
    }
    var gpu := Gpu.NoGpu;
    if metricData.Some? && metricData.value.resourceMetrics.Some? {
      var g := Gpu.AggregateGpuMetrics(metricData.value.resourceMetrics.value);
      if g.Failure? {
        return Failure(g.error);
      }
      gpu := g.value;
    }
    r := Success(RowOf(args, results, totals.value, co2.value, gpu, submittedBy, now));
  }

  /** The trace loop: `total_tokens`, `total_duration_ms`, `total_cost_usd` summed leniently. */
  method SumTraceTotals(traceData: seq<Trace>) returns (r: Result<Totals>)
    ensures r.Success? <==> TraceTotals(traceData).Success?
    ensures r.Success? ==> r == TraceTotals(traceData)
  {
    var totalTokens, totalDurationMs, totalCostUsd := 0.0, 0.0, 0.0;
    for i := 0 to |traceData|
      invariant TraceTotals(traceData[..i]) == Success(Totals(totalTokens, totalDurationMs, totalCostUsd))
    {
      FoldAt(NoTotals, traceData, i, TraceStep);
      var next := TraceStep(Totals(totalTokens, totalDurationMs, totalCostUsd), traceData[i]);
      if next.Failure? {
        FoldFailsAt(NoTotals, traceData, i, TraceStep);
        return next;
      }
      totalTokens, totalDurationMs, totalCostUsd := next.value.tokens, next.value.durationMs, next.value.costUsd;
    }
    assert traceData[..|traceData|] == traceData;
    r := Success(Totals(totalTokens, totalDurationMs, totalCostUsd));
  }

  /** The CO2 loop over the aggregates and their data points. */
  method SumCo2(metricData: Option<MetricData>) returns (r: Result<real>)
    ensures r.Success? <==> Co2Total(metricData).Success?
    ensures r.Success? ==> r == Co2Total(metricData)
  {
    var totalCo2 := 0.0;
    if metricData.Some? && metricData.value.aggregates.Some? {
      var aggregates := metricData.value.aggregates.value;
      for i := 0 to |aggregates|
        invariant Fold(0.0, aggregates[..i], Co2Step) == Success(totalCo2)
      {
        FoldAt(0.0, aggregates, i, Co2Step);
        var m := aggregates[i];
        if m.name == Co2Name {
          var sum := SumCo2Points(totalCo2, m.dataPoints);
          if sum.Failure? {
            FoldFailsAt(0.0, aggregates, i, Co2Step);
            return sum;
          }
          totalCo2 := sum.value;
        }
      }
      assert aggregates[..|aggregates|] == aggregates;
    }
    r := Success(totalCo2);
  }

  /** Adds the data points of one CO2 metric to `total`, as the inner loop of the CO2 sum does. */
  method SumCo2Points(total: real, points: seq<Collector.DataPoint>) returns (r: Result<real>)
    ensures r.Success? <==> Fold(total, points, Co2PointStep).Success?
    ensures r.Success? ==> r == Fold(total, points, Co2PointStep)
  {
    var sum := total;
    for l := 0 to |points|
      invariant Fold(total, points[..l], Co2PointStep) == Success(sum)
    {
      FoldAt(total, points, l, Co2PointStep);
      var next := Co2PointStep(sum, points[l]);
      if next.Failure? {
        FoldFailsAt(total, points, l, Co2PointStep);
        return next;
      }
      sum := next.value;
    }
    assert points[..|points|] == points;
    r := Success(sum);
  }

  // ---------------------------------------------------------------------------
  // flatten_results_for_hf
  // ---------------------------------------------------------------------------

  /**
   * One row of the results dataset. The trace summary is kept as a value, not as JSON
   * text; `None` is the summary of a result that was never stamped, dumped as `null`.
   */
  datatype FlatRow = FlatRow(
    model: string,
    evaluationDate: string,
    testId: string,
    agentType: string,
    difficulty: string,
    prompt: string,
    success: bool,
    toolCalled: bool,
    correctTool: bool,
    finalAnswerCalled: bool,
    responseCorrect: bool,
    toolsUsed: seq<string>,
    steps: nat,
    response: Option<string>,
    error: Option<string>,
    enhancedTraceInfo: Option<TraceInfo>)

  /**
   * The row of one result: its fields copied. The result always carries the
   * `enhanced_trace_info` key, so its value (`None` when it was never stamped) is kept.
   */
  function ToFlatRow(res: TestResult, modelName: string, date: string): FlatRow
  {
    FlatRow(modelName, date, res.testId, res.agentType, res.difficulty, res.prompt, res.success,
            res.toolCalled, res.correctTool, res.finalAnswerCalled, res.responseCorrect, res.toolsUsed,
            res.steps, res.response, res.error, res.enhancedTraceInfo)
  }

  function FlatRows(results: seq<TestResult>, modelName: string, date: string): seq<FlatRow>
  {
    seq(|results|, k requires 0 <= k < |results| => ToFlatRow(results[k], modelName, date))
  }

  lemma FlatRowsConcat(a: seq<TestResult>, b: seq<TestResult>, modelName: string, date: string)
    ensures FlatRows(a + b, modelName, date) == FlatRows(a, modelName, date) + FlatRows(b, modelName, date)
  {
    forall k | 0 <= k < |a + b|
      ensures FlatRows(a + b, modelName, date)[k] == (FlatRows(a, modelName, date) + FlatRows(b, modelName, date))[k]
    {
      if k < |a| {
        assert (a + b)[k] == a[k];
      } else {
        assert (a + b)[k] == b[k - |a|];
      }
    }
  }

  /**
   * `flatten_results_for_hf(all_results, model_name)`: one row per result, agent type
   * by agent type in the dictionary's order, each copying its result's fields; the
   * clock reading `now` dates every row.
   */
  method FlattenResultsForHf(allResults: Dict<string, seq<TestResult>>, modelName: string, now: DateTime)
    returns (flatResults: seq<FlatRow>)
    ensures |flatResults| == |Flatten(Values(allResults))|
    ensures forall k :: 0 <= k < |flatResults| ==>
      flatResults[k] == ToFlatRow(Flatten(Values(allResults))[k], modelName, IsoFormat(now))
  {
    var groups := Values(allResults);
    var date := IsoFormat(now);
    flatResults := [];
    for g := 0 to |groups|
      invariant flatResults == FlatRows(Flatten(groups[..g]), modelName, date)
    {
      var results := groups[g];
      ghost var before := flatResults;
      for i := 0 to |results|
        invariant flatResults == before + FlatRows(results[..i], modelName, date)
      {
        assert results[..i + 1] == results[..i] + [results[i]];
        FlatRowsConcat(results[..i], [results[i]], modelName, date);
        flatResults := flatResults + [ToFlatRow(results[i], modelName, date)];
      }
      assert results[..|results|] == results;
      var p := groups[..g + 1];
      assert p[..|p| - 1] == groups[..g];
      FlatRowsConcat(Flatten(groups[..g]), results, modelName, date);
    }
    assert groups[..|groups|] == groups;
  }

  // ---------------------------------------------------------------------------
  // update_leaderboard
  // ---------------------------------------------------------------------------

  /** The leaderboard datasets on the hub, by repository name. */
  class LeaderboardHub {
    var datasets: map<string, seq<LeaderboardRow>>

    constructor(datasets: map<string, seq<LeaderboardRow>>)
      ensures this.datasets == datasets
    {
      this.datasets := datasets;
    }

    /**
     * `update_leaderboard(repo, new_row, token)`: nothing without a repository name;
     * otherwise the existing rows (none for a repository not yet created) followed by
     * the new row are pushed back.
     */
    method UpdateLeaderboard(leaderboardRepo: string, newRow: LeaderboardRow)
      modifies this
      ensures leaderboardRepo == "" ==> datasets == old(datasets)
      ensures leaderboardRepo != "" ==>
        datasets == old(datasets)[leaderboardRepo := ExistingRows(old(datasets), leaderboardRepo) + [newRow]]
      ensures leaderboardRepo != "" ==>
        && |datasets[leaderboardRepo]| == |ExistingRows(old(datasets), leaderboardRepo)| + 1
        && datasets[leaderboardRepo][..|ExistingRows(old(datasets), leaderboardRepo)|] == ExistingRows(old(datasets), leaderboardRepo)
        && datasets[leaderboardRepo][|datasets[leaderboardRepo]| - 1] == newRow
    {
      if leaderboardRepo == "" {
        return;
      }
      var existingData := ExistingRows(datasets, leaderboardRepo);
      existingData := existingData + [newRow];
      datasets := datasets[leaderboardRepo := existingData];
    }
  }

  /** The rows loaded from a repository; a repository that does not exist has none. */
  function ExistingRows(datasets: map<string, seq<LeaderboardRow>>, repo: string): seq<LeaderboardRow>
  {
    if repo in datasets then datasets[repo] else []
  }
}
