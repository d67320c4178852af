/**
 * `aggregate_gpu_metrics` of smoltrace/utils.py: the GPU time series exported in the
 * OpenTelemetry JSON form (`resourceMetrics` → `scopeMetrics` → `metrics` →
 * `gauge`/`sum` → `dataPoints`) are grouped by metric name and reduced to averages
 * and maxima.
 */
module Gpu {
  import opened Wrappers
  import opened Python
  import opened Seqs

  /** A data point: its `asInt` and `asDouble` entries, each absent or a value. */
  datatype NumberPoint = NumberPoint(asInt: Option<PyValue>, asDouble: Option<PyValue>)

  /**
   * A metric: its `name` (absent is `None`), and the `dataPoints` lists of its
   * `gauge` and `sum` entries (`None` when the entry is absent; a present entry
   * without `dataPoints` has the list `[]`).
   */
  datatype GpuMetric = GpuMetric(name: Option<string>, gauge: Option<seq<NumberPoint>>, sum: Option<seq<NumberPoint>>)

  datatype ScopeMetrics = ScopeMetrics(metrics: seq<GpuMetric>)

  datatype ResourceMetrics = ResourceMetrics(scopeMetrics: seq<ScopeMetrics>)

  /** `metrics_by_name`: the values collected so far under each metric name. */
  type ByName = map<Option<string>, seq<real>>

  /** The averages and maxima reported; `None` where no value was collected. */
  datatype GpuSummary = GpuSummary(
    utilizationAvg: Option<real>, utilizationMax: Option<real>,
    memoryAvg: Option<real>, memoryMax: Option<real>,
    temperatureAvg: Option<real>, temperatureMax: Option<real>,
    powerAvg: Option<real>)

  const NoGpu: GpuSummary := GpuSummary(None, None, None, None, None, None, None)

  const UtilizationName: string := "gen_ai.gpu.utilization"
  const MemoryName: string := "gen_ai.gpu.memory.used"
  const TemperatureName: string := "gen_ai.gpu.temperature"
  const PowerName: string := "gen_ai.gpu.power"

  /** `metrics_by_name.get(name, [])`. */
  function Lookup(byName: ByName, name: Option<string>): seq<real>
  {
    if name in byName then byName[name] else []
  }

  /** The data points of a metric: those of `gauge` when present, else those of `sum`. */
  function Points(m: GpuMetric): (r: seq<NumberPoint>)
    ensures m.gauge.Some? ==> r == m.gauge.value
    ensures m.gauge.None? && m.sum.Some? ==> r == m.sum.value
    ensures m.gauge.None? && m.sum.None? ==> r == []
  {
    if m.gauge.Some? then m.gauge.value else if m.sum.Some? then m.sum.value else []
  }

  /**
   * The value of a point: `int(asInt)` when `asInt` is truthy, else `float(asDouble)`
   * when `asDouble` is there and not `None`, else no value. A failing conversion raises.
   */
  function PointValue(dp: NumberPoint): Result<Option<real>>
  {
    if dp.asInt.Some? && Truthy(dp.asInt.value) then
      match ToInt(dp.asInt.value)
      case None => Failure("int() of asInt failed")
      case Some(i) => Success(Some(i as real))
    else if dp.asDouble.Some? && !dp.asDouble.value.PyNone? then
      match ToFloat(dp.asDouble.value)
      case None => Failure("float() of asDouble failed")
      case Some(x) => Success(Some(x))
    else Success(None)
  }

  /** The inner loop's turn: a point with a value appends it. */
  function PointStep(vs: seq<real>, dp: NumberPoint): Result<seq<real>>
  {
    match PointValue(dp)
    case Failure(e) => Failure(e)
    case Success(None) => Success(vs)
    case Success(Some(v)) => Success(vs + [v])
  }

  /** The values of a metric's points, in order. */
  function PointValues(dps: seq<NumberPoint>): Result<seq<real>>
  {
    Fold([], dps, PointStep)
  }

  /** A metric registers its name and appends its points' values under it. */
  function MetricStep(byName: ByName, m: GpuMetric): Result<ByName>
  {
    match PointValues(Points(m))
    case Failure(e) => Failure(e)
    case Success(vs) => Success(byName[m.name := Lookup(byName, m.name) + vs])
  }

  function ScopeStep(byName: ByName, sc: ScopeMetrics): Result<ByName>
  {
    Fold(byName, sc.metrics, MetricStep)
  }

  function ResourceStep(byName: ByName, rm: ResourceMetrics): Result<ByName>
  {
    Fold(byName, rm.scopeMetrics, ScopeStep)
  }

  /** `metrics_by_name` after the nested loops, or the exception they raise. */
  function Collected(rms: seq<ResourceMetrics>): Result<ByName>
  {
    Fold(map[], rms, ResourceStep)
  }

  // ---------------------------------------------------------------------------
  // safe_avg and safe_max
  // ---------------------------------------------------------------------------

  function Sum(vs: seq<real>): real
    decreases |vs|
  {
    if vs == [] then 0.0 else Sum(vs[..|vs| - 1]) + vs[|vs| - 1]
  }

  function Max(vs: seq<real>): (r: real)
    requires vs != []
    ensures r in vs
    ensures forall i :: 0 <= i < |vs| ==> vs[i] <= r
    decreases |vs|
  {
    if |vs| == 1 then vs[0]
    else
      var m := Max(vs[..|vs| - 1]);
      assert forall i :: 0 <= i < |vs| - 1 ==> vs[..|vs| - 1][i] == vs[i];
      if vs[|vs| - 1] > m then vs[|vs| - 1] else m
  }

  /** `sum(values) / len(values) if values else None`. */
  function SafeAvg(vs: seq<real>): Option<real>
  {
    if vs == [] then None else Some(Sum(vs) / |vs| as real)
  }

  /** `max(values) if values else None`. */
  function SafeMax(vs: seq<real>): Option<real>
  {
    if vs == [] then None else Some(Max(vs))
  }

  /** A sum is at most the length times any upper bound of the values. */
  lemma {:induction false} SumBound(vs: seq<real>, b: real)
    requires forall i :: 0 <= i < |vs| ==> vs[i] <= b
    ensures Sum(vs) <= |vs| as real * b
    decreases |vs|
  {
    if vs != [] {
      var init := vs[..|vs| - 1];
      assert forall i :: 0 <= i < |init| ==> init[i] == vs[i];
      SumBound(init, b);
    }
  }

  /** The average and the maximum are defined together, and the maximum is never below the average. */
  lemma MaxAtLeastAvg(vs: seq<real>)
    ensures SafeAvg(vs).Some? <==> SafeMax(vs).Some?
    ensures SafeAvg(vs).Some? ==> SafeAvg(vs).value <= SafeMax(vs).value
  {
    if vs != [] {
      SumBound(vs, Max(vs));
      var n := |vs| as real;
      assert Sum(vs) / n <= Max(vs) by {
        assert Sum(vs) <= n * Max(vs);
      }
    }
  }

  /** The summary of the collected values: averages and maxima of the four GPU series. */
  function Summary(byName: ByName): GpuSummary
  {
    var u := Lookup(byName, Some(UtilizationName));
    var m := Lookup(byName, Some(MemoryName));
    var t := Lookup(byName, Some(TemperatureName));
    GpuSummary(SafeAvg(u), SafeMax(u), SafeAvg(m), SafeMax(m), SafeAvg(t), SafeMax(t),
               SafeAvg(Lookup(byName, Some(PowerName))))
  }

  /** `aggregate_gpu_metrics(resource_metrics)` as a value. */
  function Aggregated(rms: seq<ResourceMetrics>): Result<GpuSummary>
  {
    if rms == [] then Success(NoGpu)
    else
      match Collected(rms)
      case Failure(e) => Failure(e)
      case Success(byName) => Success(Summary(byName))
  }

  /** Every reported maximum is at least the matching average. */
  lemma AggregatedMaxAtLeastAvg(rms: seq<ResourceMetrics>)
    requires Aggregated(rms).Success?
    ensures var g := Aggregated(rms).value;
      && (g.utilizationAvg.Some? <==> g.utilizationMax.Some?)
      && (g.utilizationAvg.Some? ==> g.utilizationAvg.value <= g.utilizationMax.value)
      && (g.memoryAvg.Some? <==> g.memoryMax.Some?)
      && (g.memoryAvg.Some? ==> g.memoryAvg.value <= g.memoryMax.value)
      && (g.temperatureAvg.Some? <==> g.temperatureMax.Some?)
      && (g.temperatureAvg.Some? ==> g.temperatureAvg.value <= g.temperatureMax.value)
  {
    if rms != [] {
      var byName := Collected(rms).value;
      MaxAtLeastAvg(Lookup(byName, Some(UtilizationName)));
      MaxAtLeastAvg(Lookup(byName, Some(MemoryName)));
      MaxAtLeastAvg(Lookup(byName, Some(TemperatureName)));
    }
  }

  // ---------------------------------------------------------------------------
  // Grouping by name
  // ---------------------------------------------------------------------------

  /** The values of a metric whose points all convert. */
  function MetricValues(m: GpuMetric): seq<real>
  {
    match PointValues(Points(m))
    case Failure(_) => []
    case Success(vs) => vs
  }

  /** The values of the metrics called `name`, in order. */
  function ValuesNamed(ms: seq<GpuMetric>, name: Option<string>): seq<real>
    decreases |ms|
  {
    if ms == [] then []
    else ValuesNamed(ms[..|ms| - 1], name) + (if ms[|ms| - 1].name == name then MetricValues(ms[|ms| - 1]) else [])
  }

  /** One metric adds its values under its own name and touches no other entry. */
  lemma MetricStepGroup(byName: ByName, m: GpuMetric, name: Option<string>)
    requires MetricStep(byName, m).Success?
    ensures Lookup(MetricStep(byName, m).value, name) ==
      Lookup(byName, name) + (if m.name == name then MetricValues(m) else [])
    ensures name in MetricStep(byName, m).value <==> name in byName || m.name == name
  {
  }

  /**
   * Grouping: after a run of metrics, each name holds what it held before followed by
   * the values of the metrics of that name, in order.
   */
  lemma {:induction false} MetricStepsGroup(byName: ByName, ms: seq<GpuMetric>, name: Option<string>)
    requires Fold(byName, ms, MetricStep).Success?
    ensures Lookup(Fold(byName, ms, MetricStep).value, name) == Lookup(byName, name) + ValuesNamed(ms, name)
    decreases |ms|
  {
    if ms != [] {
      var init, last := ms[..|ms| - 1], ms[|ms| - 1];
      MetricStepsGroup(byName, init, name);
      var before := Fold(byName, init, MetricStep).value;
      assert Fold(byName, ms, MetricStep) == MetricStep(before, last);
      MetricStepGroup(before, last, name);
      var more := if last.name == name then MetricValues(last) else [];
      assert ValuesNamed(ms, name) == ValuesNamed(init, name) + more;
      Assoc(Lookup(byName, name), ValuesNamed(init, name), more);
    }
  }

  // ---------------------------------------------------------------------------
  // The nested loops
  // ---------------------------------------------------------------------------

  /** `aggregate_gpu_metrics(resource_metrics)`. */
  method AggregateGpuMetrics(rms: seq<ResourceMetrics>) returns (r: Result<GpuSummary>)
    ensures r.Success? <==> Aggregated(rms).Success?
    ensures r.Success? ==> r == Aggregated(rms)
  {
    if rms == [] {
      return Success(NoGpu);
    }
    var byName: ByName := map[];
    for i := 0 to |rms|
      invariant Fold(map[], rms[..i], ResourceStep) == Success(byName)
    {
      FoldAt(map[], rms, i, ResourceStep);
      var scopes := rms[i].scopeMetrics;
      ghost var atResource := byName;
      for j := 0 to |scopes|
        invariant Fold(atResource, scopes[..j], ScopeStep) == Success(byName)
      {
        FoldAt(atResource, scopes, j, ScopeStep);
        var metrics := scopes[j].metrics;
        ghost var atScope := byName;
        for k := 0 to |metrics|
          invariant Fold(atScope, metrics[..k], MetricStep) == Success(byName)
        {
          FoldAt(atScope, metrics, k, MetricStep);
          var metric := metrics[k];
          var name := metric.name;
          var dataPoints := Points(metric);
          ghost var atMetric := byName;
          if name !in byName {
            byName := byName[name := []];
          }
          assert Lookup(atMetric, name) == byName[name];
          var appended := AppendPoints(byName, name, dataPoints);
          if appended.Failure? {
            MetricFailure(rms, i, atResource, j, atScope, k, atMetric);
            return Failure(appended.error);
          }
          ghost var inserted := byName;
          byName := appended.value;
          assert byName == atMetric[name := Lookup(atMetric, name) + PointValues(dataPoints).value] by {
            assert byName == inserted[name := inserted[name] + PointValues(dataPoints).value];
          }
          assert MetricStep(atMetric, metric) == Success(byName);
        }
        assert metrics[..|metrics|] == metrics;
      }
      assert scopes[..|scopes|] == scopes;
    }
    assert rms[..|rms|] == rms;
    r := Success(Summary(byName));
  }

  /**
   * The innermost loop: the values of the points are appended, one at a time, to the
   * list already stored under `name`; a point that fails to convert raises.
   */
  method AppendPoints(byName: ByName, name: Option<string>, dataPoints: seq<NumberPoint>) returns (r: Result<ByName>)
    requires name in byName
    ensures r.Success? <==> PointValues(dataPoints).Success?
    ensures r.Success? ==> r.value == byName[name := byName[name] + PointValues(dataPoints).value]
  {
    var current := byName;
    ghost var values: seq<real> := [];
    assert dataPoints[..0] == [];
    assert byName[name] + values == byName[name];
    assert current == byName[name := byName[name]];
    for l := 0 to |dataPoints|
      invariant PointValues(dataPoints[..l]) == Success(values)
      invariant current == byName[name := byName[name] + values]
    {
      FoldAt([], dataPoints, l, PointStep);
      var dp := dataPoints[l];
      var value: Option<real> := None;
      if dp.asInt.Some? && Truthy(dp.asInt.value) {
        var n := ToInt(dp.asInt.value);
        if n.None? {
          FoldFailsAt([], dataPoints, l, PointStep);
          return Failure("int() of asInt failed");
        }
        value := Some(n.value as real);
      } else if dp.asDouble.Some? && !dp.asDouble.value.PyNone? {
        var x := ToFloat(dp.asDouble.value);
        if x.None? {
          FoldFailsAt([], dataPoints, l, PointStep);
          return Failure("float() of asDouble failed");
        }
        value := Some(x.value);
      }
      assert PointValue(dp) == Success(value);
      if value.Some? {
        Assoc(byName[name], values, [value.value]);
        current := current[name := current[name] + [value.value]];
        values := values + [value.value];
      }
    }
    assert dataPoints[..|dataPoints|] == dataPoints;
    r := Success(current);
  }

  /** A metric whose points fail to convert makes the whole aggregation raise. */
  lemma MetricFailure(rms: seq<ResourceMetrics>, i: nat, atResource: ByName, j: nat, atScope: ByName,
                      k: nat, atMetric: ByName)
    requires i < |rms| && Fold(map[], rms[..i], ResourceStep) == Success(atResource)
    requires j < |rms[i].scopeMetrics| && Fold(atResource, rms[i].scopeMetrics[..j], ScopeStep) == Success(atScope)
    requires k < |rms[i].scopeMetrics[j].metrics|
    requires Fold(atScope, rms[i].scopeMetrics[j].metrics[..k], MetricStep) == Success(atMetric)
    requires PointValues(Points(rms[i].scopeMetrics[j].metrics[k])).Failure?
    ensures Collected(rms).Failure?
  {
    var scopes := rms[i].scopeMetrics;
    var metrics := scopes[j].metrics;
    FoldFailsAt(atScope, metrics, k, MetricStep);
    FoldFailsAt(atResource, scopes, j, ScopeStep);
    FoldFailsAt(map[], rms, i, ResourceStep);
  }
}
