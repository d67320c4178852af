/**
 * The trace-metrics collector of smoltrace/otel.py (`InMemoryMetricReaderCollector`):
 * it sums tokens and cost over the traces, counts the test-evaluation spans with their
 * successes, tool calls and steps, and reports six metric dictionaries; and it flattens
 * OTLP attribute lists into plain dictionaries.
 */
module Collector {
  import opened Wrappers
  import opened Python
  import opened Seqs
  import opened OrderedDict
  import opened Spans
  import opened Traces
  import Scoring
  import Text

  /** One data point: its `value` dictionary and its `attributes` dictionary. */
  datatype DataPoint = DataPoint(value: Dict<string, PyValue>, attributes: Dict<string, PyValue>)

  /** A metric dictionary: name, type, optional unit and data points. */
  datatype Metric = Metric(name: string, kind: string, unit: Option<string>, dataPoints: seq<DataPoint>)

  const ToolCallsKey: string := "tests.tool_calls"
  const StepsKey: string := "tests.steps"

  /** The names of the reported metrics, in order. */
  const MetricNames: seq<string> := [
    "tests.successful", "tests.tool_calls", "tests.steps",
    "llm.token_count.total", "gen_ai.usage.cost.total", "gen_ai.co2.emissions"]

  // ---------------------------------------------------------------------------
  // The success lookup
  // ---------------------------------------------------------------------------

  /** The `(test_id, success)` pair of every result, in order. */
  function Outcomes(results: seq<Scoring.TestResult>): (r: seq<(string, bool)>)
    ensures |r| == |results|
    ensures forall i :: 0 <= i < |results| ==> r[i] == (results[i].testId, results[i].success)
  {
    seq(|results|, i requires 0 <= i < |results| => (results[i].testId, results[i].success))
  }

  /** `{test_id: success for ...}`: a later pair overwrites an earlier one. */
  function SuccessMap(pairs: seq<(string, bool)>): (m: map<string, bool>)
    decreases |pairs|
  {
    if pairs == [] then map[]
    else SuccessMap(pairs[..|pairs| - 1])[pairs[|pairs| - 1].0 := pairs[|pairs| - 1].1]
  }

  /**
   * A test id is in the lookup exactly when some result has it, and is mapped to the
   * success of the last such result.
   */
  lemma {:induction false} SuccessMapLast(pairs: seq<(string, bool)>, k: string)
    ensures k in SuccessMap(pairs) <==> exists i :: 0 <= i < |pairs| && pairs[i].0 == k
    ensures k in SuccessMap(pairs) ==> exists i :: && 0 <= i < |pairs| && pairs[i] == (k, SuccessMap(pairs)[k])
                                                   && forall j :: i < j < |pairs| ==> pairs[j].0 != k
    decreases |pairs|
  {
    if pairs != [] {
      var n := |pairs| - 1;
      var init := pairs[..n];
      SuccessMapLast(init, k);
      if pairs[n].0 != k {
        if k in SuccessMap(init) {
          var i :| && 0 <= i < |init| && init[i] == (k, SuccessMap(init)[k])
                   && forall j :: i < j < |init| ==> init[j].0 != k;
          assert pairs[i] == init[i];
          assert forall j :: i < j < |pairs| ==> pairs[j].0 != k by {
            forall j | i < j < |pairs| ensures pairs[j].0 != k {
              if j < n { assert pairs[j] == init[j]; }
            }
          }
        } else {
          forall i | 0 <= i < |pairs| ensures pairs[i].0 != k {
            if i < n { assert pairs[i] == init[i]; }
          }
        }
      } else {
        assert pairs[n] == (k, SuccessMap(pairs)[k]);
      }
    }
  }

  // ---------------------------------------------------------------------------
  // The running totals
  // ---------------------------------------------------------------------------

  /** The six accumulators of `_aggregate_from_traces`. */
  datatype Tally = Tally(success: nat, toolCalls: int, steps: int, tests: nat, tokens: int, cost: real)

  const NoTally: Tally := Tally(0, 0, 0, 0, 0, 0.0)

  /** `attrs.get(key, "0")`. */
  function AttrOr(attrs: map<string, PyValue>, key: string): PyValue
  {
    if key in attrs then attrs[key] else PyStr("0")
  }

  /**
   * One span: a truthy `test.id` counts a test, a success when the lookup says so, and
   * the tool calls and steps that `int()` accepts. Looking up an unhashable id raises.
   */
  function SpanStep(t: Tally, span: Span, successMap: map<string, bool>): Result<Tally>
  {
    var attrs := span.attributes;
    if TestIdKey !in attrs || !Truthy(attrs[TestIdKey]) then Success(t)
    else
      var id := attrs[TestIdKey];
      if !Hashable(id) then Failure("unhashable type")
      else
        var succeeded := id.PyStr? && id.s in successMap && successMap[id.s];
        Success(Tally(
          t.success + (if succeeded then 1 else 0),
          t.toolCalls + ToInt(AttrOr(attrs, ToolCallsKey)).GetOr(0),
          t.steps + ToInt(AttrOr(attrs, StepsKey)).GetOr(0),
          t.tests + 1,
          t.tokens,
          t.cost))
  }

  /** The spans of one trace, in order. */
  function SpansTally(t: Tally, spans: seq<Span>, successMap: map<string, bool>): Result<Tally>
    decreases |spans|
  {
    if spans == [] then Success(t)
    else
      match SpansTally(t, spans[..|spans| - 1], successMap)
      case Failure(e) => Failure(e)
      case Success(t') => SpanStep(t', spans[|spans| - 1], successMap)
  }

  /** The trace totals: truthy ones are converted (a failed conversion raises), then the spans. */
  function TraceStep(t: Tally, trace: Trace, successMap: map<string, bool>): Result<Tally>
  {
    var tokens: Option<int> :=
      if trace.totalTokens.Some? && Truthy(trace.totalTokens.value) then ToInt(trace.totalTokens.value) else Some(0);
    var cost: Option<real> :=
      if trace.totalCostUsd.Some? && Truthy(trace.totalCostUsd.value) then ToFloat(trace.totalCostUsd.value) else Some(0.0);
    if tokens.None? || cost.None? then Failure("conversion of a trace total failed")
    else SpansTally(t.(tokens := t.tokens + tokens.value, cost := t.cost + cost.value), trace.spans, successMap)
  }

  /** The totals after the given traces. */
  function TracesTally(t: Tally, traces: seq<Trace>, successMap: map<string, bool>): Result<Tally>
    decreases |traces|
  {
    if traces == [] then Success(t)
    else
      match TracesTally(t, traces[..|traces| - 1], successMap)
      case Failure(e) => Failure(e)
      case Success(t') => TraceStep(t', traces[|traces| - 1], successMap)
  }

  /** No more successes than tests are ever counted. */
  lemma {:induction false} SpansTallyBound(t: Tally, spans: seq<Span>, successMap: map<string, bool>)
    requires t.success <= t.tests
    requires SpansTally(t, spans, successMap).Success?
    ensures SpansTally(t, spans, successMap).value.success <= SpansTally(t, spans, successMap).value.tests
    ensures SpansTally(t, spans, successMap).value.tests >= t.tests
    decreases |spans|
  {
    if spans != [] {
      SpansTallyBound(t, spans[..|spans| - 1], successMap);
    }
  }

  lemma {:induction false} TracesTallyBound(t: Tally, traces: seq<Trace>, successMap: map<string, bool>)
    requires t.success <= t.tests
    requires TracesTally(t, traces, successMap).Success?
    ensures TracesTally(t, traces, successMap).value.success <= TracesTally(t, traces, successMap).value.tests
    decreases |traces|
  {
    if traces != [] {
      var init, last := traces[..|traces| - 1], traces[|traces| - 1];
      TracesTallyBound(t, init, successMap);
      var t' := TracesTally(t, init, successMap).value;
      var tokens: Option<int> :=
        if last.totalTokens.Some? && Truthy(last.totalTokens.value) then ToInt(last.totalTokens.value) else Some(0);
      var cost: Option<real> :=
        if last.totalCostUsd.Some? && Truthy(last.totalCostUsd.value) then ToFloat(last.totalCostUsd.value) else Some(0.0);
      SpansTallyBound(t'.(tokens := t'.tokens + tokens.value, cost := t'.cost + cost.value), last.spans, successMap);
    }
  }

  /** Tallying two runs of traces one after the other is tallying them together. */
  lemma {:induction false} TracesTallyConcat(t: Tally, a: seq<Trace>, b: seq<Trace>, successMap: map<string, bool>)
    ensures TracesTally(t, a + b, successMap) ==
      match TracesTally(t, a, successMap)
      case Failure(e) => Failure(e)
      case Success(t') => TracesTally(t', b, successMap)
    decreases |b|
  {
    if b == [] {
      assert a + b == a;
    } else {
      var init := b[..|b| - 1];
      assert (a + b)[..|a + b| - 1] == a + init;
      assert (a + b)[|a + b| - 1] == b[|b| - 1];
      TracesTallyConcat(t, a, init, successMap);
    }
  }

  /** Traces without spans and without truthy totals leave the totals as they are. */
  lemma {:induction false} TracesTallyEmpty(t: Tally, traces: seq<Trace>, successMap: map<string, bool>)
    requires forall i :: 0 <= i < |traces| ==>
      traces[i].spans == [] && traces[i].totalTokens.None? && traces[i].totalCostUsd.None?
    ensures TracesTally(t, traces, successMap) == Success(t)
    decreases |traces|
  {
    if traces != [] {
      TracesTallyEmpty(t, traces[..|traces| - 1], successMap);
    }
  }

  /** A test evaluation span: one whose attributes carry a truthy `test.id`. */
  predicate IsTestSpan(span: Span)
  {
    TestIdKey in span.attributes && Truthy(span.attributes[TestIdKey])
  }

  /** The number of test evaluation spans. */
  function TestSpans(spans: seq<Span>): (r: nat)
    ensures r <= |spans|
    decreases |spans|
  {
    if spans == [] then 0
    else TestSpans(spans[..|spans| - 1]) + (if IsTestSpan(spans[|spans| - 1]) then 1 else 0)
  }

  /** A test span that the lookup counts as a success: its id is a string mapped to true. */
  predicate IsSuccessSpan(span: Span, successMap: map<string, bool>)
  {
    && IsTestSpan(span)
    && span.attributes[TestIdKey].PyStr?
    && span.attributes[TestIdKey].s in successMap
    && successMap[span.attributes[TestIdKey].s]
  }

  /** The number of test spans counted as successes; never more than the test spans. */
  function SuccessSpans(spans: seq<Span>, successMap: map<string, bool>): (r: nat)
    ensures r <= TestSpans(spans)
    decreases |spans|
  {
    if spans == [] then 0
    else SuccessSpans(spans[..|spans| - 1], successMap) + (if IsSuccessSpan(spans[|spans| - 1], successMap) then 1 else 0)
  }

  /**
   * One span: other spans change nothing; a test span counts one test, one success
   * exactly when the lookup maps its id to true, and adds the tool calls and steps
   * `int()` accepts, where an absent attribute counts as `"0"` and a rejected one is
   * skipped.
   */
  lemma SpanStepCounts(t: Tally, span: Span, successMap: map<string, bool>)
    requires SpanStep(t, span, successMap).Success?
    ensures var r, attrs := SpanStep(t, span, successMap).value, span.attributes;
      && (!IsTestSpan(span) ==> r == t)
      && (IsTestSpan(span) ==>
            && r.tests == t.tests + 1
            && r.tokens == t.tokens && r.cost == t.cost
            && (r.success == t.success + 1 <==>
                  attrs[TestIdKey].PyStr? && attrs[TestIdKey].s in successMap && successMap[attrs[TestIdKey].s])
            && (r.success == t.success + 1 || r.success == t.success)
            && (ToolCallsKey !in attrs ==> r.toolCalls == t.toolCalls)
            && (ToolCallsKey in attrs ==> r.toolCalls == t.toolCalls + ToInt(attrs[ToolCallsKey]).GetOr(0))
            && (StepsKey !in attrs ==> r.steps == t.steps)
            && (StepsKey in attrs ==> r.steps == t.steps + ToInt(attrs[StepsKey]).GetOr(0)))
  {
    ToFloatOfIntText(0);
    assert Text.IntToString(0) == "0";
  }

  /**
   * `test_count` grows by exactly the number of test evaluation spans and
   * `total_success` by the number of those the lookup maps to true; the trace totals stay.
   */
  lemma {:induction false} SpansTallyTests(t: Tally, spans: seq<Span>, successMap: map<string, bool>)
    requires SpansTally(t, spans, successMap).Success?
    ensures SpansTally(t, spans, successMap).value.tests == t.tests + TestSpans(spans)
    ensures SpansTally(t, spans, successMap).value.success == t.success + SuccessSpans(spans, successMap)
    ensures SpansTally(t, spans, successMap).value.tokens == t.tokens
    ensures SpansTally(t, spans, successMap).value.cost == t.cost
    decreases |spans|
  {
    if spans != [] {
      var init := spans[..|spans| - 1];
      SpansTallyTests(t, init, successMap);
      SpanStepCounts(SpansTally(t, init, successMap).value, spans[|spans| - 1], successMap);
    }
  }

  /** The tokens a trace adds: a truthy `total_tokens` as `int()` reads it, else 0. */
  function TraceTokens(trace: Trace): int
  {
    if trace.totalTokens.Some? && Truthy(trace.totalTokens.value) then ToInt(trace.totalTokens.value).GetOr(0) else 0
  }

  /** The cost a trace adds: a truthy `total_cost_usd` as `float()` reads it, else 0. */
  function TraceCost(trace: Trace): real
  {
    if trace.totalCostUsd.Some? && Truthy(trace.totalCostUsd.value) then ToFloat(trace.totalCostUsd.value).GetOr(0.0) else 0.0
  }

  /** The test spans of all traces. */
  function RunTests(traces: seq<Trace>): nat
    decreases |traces|
  {
    if traces == [] then 0 else RunTests(traces[..|traces| - 1]) + TestSpans(traces[|traces| - 1].spans)
  }

  /** The successful test spans of all traces. */
  function RunSuccesses(traces: seq<Trace>, successMap: map<string, bool>): nat
    decreases |traces|
  {
    if traces == [] then 0
    else RunSuccesses(traces[..|traces| - 1], successMap) + SuccessSpans(traces[|traces| - 1].spans, successMap)
  }

  /** The tokens of all traces. */
  function RunTokens(traces: seq<Trace>): int
    decreases |traces|
  {
    if traces == [] then 0 else RunTokens(traces[..|traces| - 1]) + TraceTokens(traces[|traces| - 1])
  }

  /** The cost of all traces. */
  function RunCost(traces: seq<Trace>): real
    decreases |traces|
  {
    if traces == [] then 0.0 else RunCost(traces[..|traces| - 1]) + TraceCost(traces[|traces| - 1])
  }

  /**
   * Over a whole run: `test_count` grows by the test spans of all traces,
   * `total_success` by those the lookup maps to true, and the token and cost totals by
   * the truthy trace totals, converted.
   */
  lemma {:induction false} TracesTallyCounts(t: Tally, traces: seq<Trace>, successMap: map<string, bool>)
    requires TracesTally(t, traces, successMap).Success?
    ensures var r := TracesTally(t, traces, successMap).value;
      && r.tests == t.tests + RunTests(traces)
      && r.success == t.success + RunSuccesses(traces, successMap)
      && r.tokens == t.tokens + RunTokens(traces)
      && r.cost == t.cost + RunCost(traces)
    decreases |traces|
  {
    if traces != [] {
      var init, last := traces[..|traces| - 1], traces[|traces| - 1];
      TracesTallyCounts(t, init, successMap);
      var t' := TracesTally(t, init, successMap).value;
      SpansTallyTests(t'.(tokens := t'.tokens + TraceTokens(last), cost := t'.cost + TraceCost(last)),
                      last.spans, successMap);
    }
  }

  // ---------------------------------------------------------------------------
  // The metric dictionaries
  // ---------------------------------------------------------------------------

  /** `a / b` as Python's true division, or the integer 0 when `b` is 0. */
  function RatioOr0(a: int, b: nat): PyValue
  {
    if b > 0 then PyFloat(a as real / b as real) else PyInt(0)
  }

  /** The six metrics built from the totals (unrounded). */
  function MetricsOf(t: Tally): (r: seq<Metric>)
    ensures |r| == 6 && forall i :: 0 <= i < 6 ==> r[i].name == MetricNames[i]
    ensures forall i :: 0 <= i < 6 ==> |r[i].dataPoints| == 1
  {
    var successRate := if t.tests > 0 then PyFloat(t.success as real / t.tests as real * 100.0) else PyInt(0);
    var co2 := if t.tokens > 0 then PyFloat(t.tokens as real / 1000.0 * 0.0004) else PyInt(0);
    [ Metric(MetricNames[0], "counter", None,
             [DataPoint([("value", PyInt(t.success))], [("total_tests", PyInt(t.tests)), ("success_rate", successRate)])]),
      Metric(MetricNames[1], "histogram", None,
             [DataPoint([("sum", PyInt(t.toolCalls)), ("count", PyInt(t.tests)), ("avg", RatioOr0(t.toolCalls, t.tests))], [])]),
      Metric(MetricNames[2], "histogram", None,
             [DataPoint([("sum", PyInt(t.steps)), ("count", PyInt(t.tests)), ("avg", RatioOr0(t.steps, t.tests))], [])]),
      Metric(MetricNames[3], "sum", Some("tokens"), [DataPoint([("value", PyInt(t.tokens))], [])]),
      Metric(MetricNames[4], "sum", Some("USD"), [DataPoint([("value", PyFloat(t.cost))], [])]),
      Metric(MetricNames[5], "sum", Some("gCO2e"), [DataPoint([("value", co2)], [])]) ]
  }

  /**
   * The success rate is a percentage between 0 and 100 when tests were counted, and
   * the CO2 estimate grows with the tokens: 0.0004 g per thousand tokens.
   */
  lemma MetricsOfRates(t: Tally)
    requires t.success <= t.tests
    ensures var rate := MetricsOf(t)[0].dataPoints[0].attributes[1].1;
      t.tests > 0 ==> rate.PyFloat? && 0.0 <= rate.r <= 100.0
    ensures var co2 := MetricsOf(t)[5].dataPoints[0].value[0].1;
      t.tokens > 0 ==> co2.PyFloat? && co2.r * 2500000.0 == t.tokens as real
    ensures t.tests == 0 ==>
      && MetricsOf(t)[0].dataPoints[0].attributes[1].1 == PyInt(0)
      && MetricsOf(t)[1].dataPoints[0].value[2].1 == PyInt(0)
      && MetricsOf(t)[2].dataPoints[0].value[2].1 == PyInt(0)
    ensures t.tokens <= 0 ==> MetricsOf(t)[5].dataPoints[0].value[0].1 == PyInt(0)
  {
    if t.tests > 0 {
      assert t.success as real / t.tests as real <= 1.0;
    }
  }

  /** `_aggregate_from_traces` as a value: the metrics of the totals, or the exception. */
  function Aggregated(traceData: seq<Trace>, allResults: Dict<string, seq<Scoring.TestResult>>): Result<seq<Metric>>
  {
    match TracesTally(NoTally, traceData, SuccessMap(Outcomes(Flatten(Values(allResults)))))
    case Failure(e) => Failure(e)
    case Success(t) => Success(MetricsOf(t))
  }

  /** The reported success count never exceeds the reported test count. */
  lemma AggregatedBound(traceData: seq<Trace>, allResults: Dict<string, seq<Scoring.TestResult>>)
    requires Aggregated(traceData, allResults).Success?
    ensures var m := Aggregated(traceData, allResults).value;
      && m[0].dataPoints[0].value[0].1.PyInt?
      && m[0].dataPoints[0].attributes[0].1.PyInt?
      && m[0].dataPoints[0].value[0].1.i <= m[0].dataPoints[0].attributes[0].1.i
  {
    TracesTallyBound(NoTally, traceData, SuccessMap(Outcomes(Flatten(Values(allResults)))));
  }

  /**
   * The reported counts of a run: `total_success` is the number of test spans whose id
   * the results map to true, `test_count` the number of test spans, and the token and
   * cost metrics are the sums of the truthy trace totals.
   */
  lemma AggregatedCounts(traceData: seq<Trace>, allResults: Dict<string, seq<Scoring.TestResult>>)
    requires Aggregated(traceData, allResults).Success?
    ensures var m, lookup := Aggregated(traceData, allResults).value, SuccessMap(Outcomes(Flatten(Values(allResults))));
      && m[0].dataPoints[0].value[0].1 == PyInt(RunSuccesses(traceData, lookup))
      && m[0].dataPoints[0].attributes[0].1 == PyInt(RunTests(traceData))
      && m[3].dataPoints[0].value[0].1 == PyInt(RunTokens(traceData))
      && m[4].dataPoints[0].value[0].1 == PyFloat(RunCost(traceData))
  {
    var lookup := SuccessMap(Outcomes(Flatten(Values(allResults))));
    TracesTallyCounts(NoTally, traceData, lookup);
    var t := TracesTally(NoTally, traceData, lookup).value;
    MetricsOfCounts(t);
  }

  /** Where the metrics carry the successes, tests, tokens and cost of the totals. */
  lemma MetricsOfCounts(t: Tally)
    ensures var m := MetricsOf(t);
      && m[0].dataPoints[0].value[0].1 == PyInt(t.success)
      && m[0].dataPoints[0].attributes[0].1 == PyInt(t.tests)
      && m[3].dataPoints[0].value[0].1 == PyInt(t.tokens)
      && m[4].dataPoints[0].value[0].1 == PyFloat(t.cost)
  {
  }

  // ---------------------------------------------------------------------------
  // flatten_attributes
  // ---------------------------------------------------------------------------

  /** `v[k]` for the string key `k` of a Python dict value, if present. */
  function Field(entries: Dict<PyValue, PyValue>, k: string): Option<PyValue>
  {
    Get(entries, PyStr(k))
  }

  /**
   * The flat value of an OTLP `value` field: the first of `stringValue`, `intValue`,
   * `doubleValue`, `boolValue` that is present, converted; `None` inside `Some` when
   * none is present (nothing is stored); `Failure` when a conversion raises. A value
   * that is not a dict is stored as `str(value)`.
   */
  function FlatValue(val: PyValue, repr: PyValue -> string): Result<Option<PyValue>>
  {
    if val.PyDict? then
      var e := val.entries;
      if Field(e, "stringValue").Some? then Success(Field(e, "stringValue"))
      else if Field(e, "intValue").Some? then
        match ToInt(Field(e, "intValue").value)
        case None => Failure("int() of intValue failed")
        case Some(i) => Success(Some(PyInt(i)))
      else if Field(e, "doubleValue").Some? then
        match ToFloat(Field(e, "doubleValue").value)
        case None => Failure("float() of doubleValue failed")
        case Some(x) => Success(Some(PyFloat(x)))
      else if Field(e, "boolValue").Some? then Success(Some(PyBool(Truthy(Field(e, "boolValue").value))))
      else Success(None)
    else Success(Some(PyStr(Str(val, repr))))
  }

  /** One list entry: a dict with `key` and `value` stores its flat value under its key. */
  function FlatEntry(flat: Dict<PyValue, PyValue>, kv: PyValue, repr: PyValue -> string): Result<Dict<PyValue, PyValue>>
  {
    if !kv.PyDict? || Field(kv.entries, "key").None? || Field(kv.entries, "value").None? then Success(flat)
    else
      var key := Field(kv.entries, "key").value;
      match FlatValue(Field(kv.entries, "value").value, repr)
      case Failure(e) => Failure(e)
      case Success(None) => Success(flat)
      case Success(Some(v)) => if Hashable(key) then Success(Put(flat, key, v)) else Failure("unhashable type")
  }

  /** The flat dictionary built from the first entries of an attribute list. */
  function FlatEntries(items: seq<PyValue>, repr: PyValue -> string): Result<Dict<PyValue, PyValue>>
    decreases |items|
  {
    if items == [] then Success([])
    else
      match FlatEntries(items[..|items| - 1], repr)
      case Failure(e) => Failure(e)
      case Success(flat) => FlatEntry(flat, items[|items| - 1], repr)
  }

  /** `flatten_attributes(attrs)` as a value. */
  function Flattened(attrs: PyValue, repr: PyValue -> string): Result<PyValue>
  {
    if attrs.PyDict? then Success(attrs)
    else if attrs.PyList? then
      match FlatEntries(attrs.items, repr)
      case Failure(e) => Failure(e)
      case Success(flat) => Success(PyDict(flat))
    else Success(PyDict([]))
  }

  /** A flattened attribute list never holds a key twice. */
  lemma {:induction false} FlatEntriesUnique(items: seq<PyValue>, repr: PyValue -> string)
    requires FlatEntries(items, repr).Success?
    ensures UniqueKeys(FlatEntries(items, repr).value)
    decreases |items|
  {
    if items != [] {
      var init := items[..|items| - 1];
      FlatEntriesUnique(init, repr);
      var flat := FlatEntries(init, repr).value;
      var kv := items[|items| - 1];
      if kv.PyDict? && Field(kv.entries, "key").Some? && Field(kv.entries, "value").Some? {
        var r := FlatValue(Field(kv.entries, "value").value, repr);
        if r.Success? && r.value.Some? {
          PutUnique(flat, Field(kv.entries, "key").value, r.value.value);
        }
      }
    }
  }

  /** The OTLP typed value a flat scalar is exported as. */
  function OtlpValue(v: PyValue): PyValue
  {
    match v
    case PyStr(_) => PyDict([(PyStr("stringValue"), v)])
    case PyInt(_) => PyDict([(PyStr("intValue"), v)])
    case PyFloat(_) => PyDict([(PyStr("doubleValue"), v)])
    case _ => PyDict([(PyStr("boolValue"), v)])
  }

  /** A flat dictionary as an OTLP attribute list `[{"key": k, "value": {...}}, ...]`. */
  function ToOtlp(d: Dict<PyValue, PyValue>): (r: seq<PyValue>)
    ensures |r| == |d|
  {
    seq(|d|, i requires 0 <= i < |d| => PyDict([(PyStr("key"), d[i].0), (PyStr("value"), OtlpValue(d[i].1))]))
  }

  /** Scalars that survive the OTLP typed encoding. */
  predicate Scalar(v: PyValue)
  {
    v.PyStr? || v.PyInt? || v.PyFloat? || v.PyBool?
  }

  /** Each entry of the encoding flattens back to its key and value. */
  lemma FlatValueOtlp(v: PyValue, repr: PyValue -> string)
    requires Scalar(v)
    ensures FlatValue(OtlpValue(v), repr) == Success(Some(v))
  {
  }

  /** One encoded entry under a new key is appended by flattening. */
  lemma FlatEntryOtlp(flat: Dict<PyValue, PyValue>, k: PyValue, v: PyValue, repr: PyValue -> string)
    requires Hashable(k) && Scalar(v) && k !in Keys(flat)
    ensures FlatEntry(flat, PyDict([(PyStr("key"), k), (PyStr("value"), OtlpValue(v))]), repr) == Success(flat + [(k, v)])
  {
    var e := [(PyStr("key"), k), (PyStr("value"), OtlpValue(v))];
    assert Field(e, "key") == Some(k);
    assert e[0].0 != PyStr("value");
    assert e[1..] == [(PyStr("value"), OtlpValue(v))];
    assert Get(e[1..], PyStr("value")) == Some(OtlpValue(v));
    assert Field(e, "value") == Some(OtlpValue(v));
    FlatValueOtlp(v, repr);
  }

  /**
   * Round trip: exporting a flat dictionary with distinct hashable keys and scalar
   * values as an OTLP attribute list and flattening it gives the dictionary back.
   */
  lemma {:induction false} FlattenToOtlp(d: Dict<PyValue, PyValue>, repr: PyValue -> string)
    requires UniqueKeys(d)
    requires forall i :: 0 <= i < |d| ==> Hashable(d[i].0) && Scalar(d[i].1)
    ensures FlatEntries(ToOtlp(d), repr) == Success(d)
    ensures Flattened(PyList(ToOtlp(d)), repr) == Success(PyDict(d))
    decreases |d|
  {
    if d != [] {
      var n := |d| - 1;
      var init := d[..n];
      var items := ToOtlp(d);
      assert items[..n] == ToOtlp(init);
      UniqueKeysPrefix(d);
      assert forall i :: 0 <= i < |init| ==> init[i] == d[i];
      FlattenToOtlp(init, repr);
      FlatEntryOtlp(init, d[n].0, d[n].1, repr);
      assert items[n] == PyDict([(PyStr("key"), d[n].0), (PyStr("value"), OtlpValue(d[n].1))]);
      FlatEntriesAt(items, n, repr);
      assert items[..n + 1] == items;
      Snoc(d);
    }
  }

  /** A dict is handed back as it is; anything that is neither a dict nor a list gives `{}`. */
  lemma FlattenedNotList(attrs: PyValue, repr: PyValue -> string)
    ensures attrs.PyDict? ==> Flattened(attrs, repr) == Success(attrs)
    ensures !attrs.PyDict? && !attrs.PyList? ==> Flattened(attrs, repr) == Success(PyDict([]))
  {
  }

  /** A typed value dict with none of the four tags. */
  predicate Untagged(val: PyValue)
  {
    && val.PyDict?
    && Field(val.entries, "stringValue").None? && Field(val.entries, "intValue").None?
    && Field(val.entries, "doubleValue").None? && Field(val.entries, "boolValue").None?
  }

  /** An entry that is not a dict with `key` and `value`, or whose value has no tag, is dropped. */
  lemma FlatEntryDropped(flat: Dict<PyValue, PyValue>, kv: PyValue, repr: PyValue -> string)
    requires || !kv.PyDict? || Field(kv.entries, "key").None? || Field(kv.entries, "value").None?
             || Untagged(Field(kv.entries, "value").value)
    ensures FlatEntry(flat, kv, repr) == Success(flat)
  {
  }

  /**
   * A well-formed entry stores its flat value under its key: a key seen before is
   * overwritten where it stands, a new key goes last, and every other key keeps its value.
   */
  lemma FlatEntryStores(flat: Dict<PyValue, PyValue>, k: PyValue, val: PyValue, repr: PyValue -> string)
    requires Hashable(k)
    requires FlatValue(val, repr).Success? && FlatValue(val, repr).value.Some?
    ensures var r := FlatEntry(flat, PyDict([(PyStr("key"), k), (PyStr("value"), val)]), repr);
      && r.Success?
      && Get(r.value, k) == FlatValue(val, repr).value
      && Keys(r.value) == (if k in Keys(flat) then Keys(flat) else Keys(flat) + [k])
      && forall k' :: k' != k ==> Get(r.value, k') == Get(flat, k')
  {
    var e := [(PyStr("key"), k), (PyStr("value"), val)];
    var v := FlatValue(val, repr).value.value;
    assert Field(e, "key") == Some(k);
    assert e[0].0 != PyStr("value");
    assert e[1..] == [(PyStr("value"), val)];
    assert Get(e[1..], PyStr("value")) == Some(val);
    assert Field(e, "value") == Some(val);
    assert FlatEntry(flat, PyDict(e), repr) == Success(Put(flat, k, v));
    GetPutSame(flat, k, v);
    KeysPut(flat, k, v);
    forall k' | k' != k ensures Get(Put(flat, k, v), k') == Get(flat, k') {
      GetPutOther(flat, k, v, k');
    }
  }

  // ---------------------------------------------------------------------------
  // The collector object
  // ---------------------------------------------------------------------------

  class InMemoryMetricReaderCollector {
    var metrics: seq<Metric>

    constructor()
      ensures metrics == []
    {
      metrics := [];
    }

    /**
     * `_aggregate_from_traces`: the success lookup from all results, then one pass
     * over the traces and their spans.
     */
    method AggregateFromTraces(traceData: seq<Trace>, allResults: Dict<string, seq<Scoring.TestResult>>)
      returns (r: Result<seq<Metric>>)
      ensures r.Success? <==> Aggregated(traceData, allResults).Success?
      ensures r.Success? ==> r == Aggregated(traceData, allResults)
    {
      var successMap := SuccessMap(Outcomes(Flatten(Values(allResults))));
      var t := NoTally;
      for i := 0 to |traceData|
        invariant TracesTally(NoTally, traceData[..i], successMap) == Success(t)
      {
        var trace := traceData[i];
        var tokens, cost := 0, 0.0;
        if trace.totalTokens.Some? && Truthy(trace.totalTokens.value) {
          var n := ToInt(trace.totalTokens.value);
          if n.None? {
            TracesTallyFailsAt(traceData, i, successMap);
            return Failure("int() of total_tokens failed");
          }
          tokens := n.value;
        }
        if trace.totalCostUsd.Some? && Truthy(trace.totalCostUsd.value) {
          var c := ToFloat(trace.totalCostUsd.value);
          if c.None? {
            TracesTallyFailsAt(traceData, i, successMap);
            return Failure("float() of total_cost_usd failed");
          }
          cost := c.value;
        }
        t := t.(tokens := t.tokens + tokens, cost := t.cost + cost);
        var s := SpansPass(t, trace.spans, successMap);
        if s.Failure? {
          TracesTallyStep(traceData, i, successMap);
          TracesTallyFailsAt(traceData, i, successMap);
          return Failure(s.error);
        }
        t := s.value;
        TracesTallyStep(traceData, i, successMap);
      }
      assert traceData[..|traceData|] == traceData;
      r := Success(MetricsOf(t));
    }

    /** The inner loop over one trace's spans. */
    method SpansPass(t0: Tally, spans: seq<Span>, successMap: map<string, bool>) returns (r: Result<Tally>)
      ensures r.Success? <==> SpansTally(t0, spans, successMap).Success?
      ensures r.Success? ==> r == SpansTally(t0, spans, successMap)
    {
      var t := t0;
      for k := 0 to |spans|
        invariant SpansTally(t0, spans[..k], successMap) == Success(t)
      {
        var span := spans[k];
        var attrs := span.attributes;
        SpansTallyAt(t0, spans, k, successMap);
        if TestIdKey in attrs && Truthy(attrs[TestIdKey]) {
          var testId := attrs[TestIdKey];
          if !Hashable(testId) {
            SpansTallyFailsAfter(t0, spans, k + 1, successMap);
            return Failure("unhashable type");
          }
          t := t.(tests := t.tests + 1);
          var succeeded := testId.PyStr? && testId.s in successMap && successMap[testId.s];
          t := t.(success := t.success + if succeeded then 1 else 0);
          var toolCalls := AttrOr(attrs, ToolCallsKey);
          var steps := AttrOr(attrs, StepsKey);
          var n := ToInt(toolCalls);
          if n.Some? {
            t := t.(toolCalls := t.toolCalls + n.value);
          }
          var m := ToInt(steps);
          if m.Some? {
            t := t.(steps := t.steps + m.value);
          }
        }
      }
      assert spans[..|spans|] == spans;
      r := Success(t);
    }

    /**
     * `collect_all(trace_data, all_results)`: no traces give `[]` and leave the stored
     * metrics alone; otherwise the stored metrics become the aggregate, or `[]` when
     * aggregating raises (also when `all_results` is `None`); they are returned.
     */
    method CollectAll(traceData: Option<seq<Trace>>, allResults: Option<Dict<string, seq<Scoring.TestResult>>>)
      returns (r: seq<Metric>)
      modifies this
      ensures traceData.None? || traceData.value == [] ==> r == [] && metrics == old(metrics)
      ensures traceData.Some? && traceData.value != [] && allResults.None? ==> r == [] && metrics == []
      ensures traceData.Some? && traceData.value != [] && allResults.Some? ==>
        && r == metrics
        && metrics == match Aggregated(traceData.value, allResults.value)
                      case Success(ms) => ms
                      case Failure(_) => []
    {
      if traceData.None? || traceData.value == [] {
        return [];
      }
      if allResults.None? {
        metrics := [];
        return metrics;
      }
      var a := AggregateFromTraces(traceData.value, allResults.value);
      if a.Failure? {
        metrics := [];
      } else {
        metrics := a.value;
      }
      return metrics;
    }

    /** `flatten_attributes(attrs)`, with `str()` of non-scalar values supplied as `repr`. */
    method FlattenAttributes(attrs: PyValue, repr: PyValue -> string) returns (r: Result<PyValue>)
      ensures r.Success? <==> Flattened(attrs, repr).Success?
      ensures r.Success? ==> r == Flattened(attrs, repr)
    {
      if attrs.PyDict? {
        return Success(attrs);
      }
      var flat: Dict<PyValue, PyValue> := [];
      if attrs.PyList? {
        var items := attrs.items;
        for i := 0 to |items|
          invariant FlatEntries(items[..i], repr) == Success(flat)
        {
          var kv := items[i];
          FlatEntriesAt(items, i, repr);
          if kv.PyDict? && Field(kv.entries, "key").Some? && Field(kv.entries, "value").Some? {
            var key := Field(kv.entries, "key").value;
            var val := Field(kv.entries, "value").value;
            var v := FlatValue(val, repr);
            if v.Failure? {
              FlatEntriesFailsAfter(items, i + 1, repr);
              return Failure(v.error);
            }
            if v.value.Some? {
              if !Hashable(key) {
                FlatEntriesFailsAfter(items, i + 1, repr);
                return Failure("unhashable type");
              }
              flat := Put(flat, key, v.value.value);
            }
          }
        }
        assert items[..|items|] == items;
      }
      return Success(PyDict(flat));
    }
  }

  // ---------------------------------------------------------------------------
  // Loop steps
  // ---------------------------------------------------------------------------

  lemma TracesTallyStep(traces: seq<Trace>, i: nat, successMap: map<string, bool>)
    requires i < |traces| && TracesTally(NoTally, traces[..i], successMap).Success?
    ensures TracesTally(NoTally, traces[..i + 1], successMap) ==
      TraceStep(TracesTally(NoTally, traces[..i], successMap).value, traces[i], successMap)
  {
    var p := traces[..i + 1];
    assert p[..|p| - 1] == traces[..i];
    assert p[|p| - 1] == traces[i];
  }

  /** A failure stays a failure whatever traces follow. */
  lemma {:induction false} TracesTallyFailsAfter(traces: seq<Trace>, n: nat, successMap: map<string, bool>)
    requires n <= |traces| && TracesTally(NoTally, traces[..n], successMap).Failure?
    ensures TracesTally(NoTally, traces, successMap).Failure?
    decreases |traces| - n
  {
    if n < |traces| {
      var p := traces[..n + 1];
      assert p[..|p| - 1] == traces[..n];
      TracesTallyFailsAfter(traces, n + 1, successMap);
    } else {
      assert traces[..n] == traces;
    }
  }

  lemma TracesTallyFailsAt(traces: seq<Trace>, i: nat, successMap: map<string, bool>)
    requires i < |traces| && TracesTally(NoTally, traces[..i], successMap).Success?
    requires TraceStep(TracesTally(NoTally, traces[..i], successMap).value, traces[i], successMap).Failure?
    ensures TracesTally(NoTally, traces, successMap).Failure?
  {
    TracesTallyStep(traces, i, successMap);
    TracesTallyFailsAfter(traces, i + 1, successMap);
  }

  lemma SpansTallyAt(t0: Tally, spans: seq<Span>, k: nat, successMap: map<string, bool>)
    requires k < |spans| && SpansTally(t0, spans[..k], successMap).Success?
    ensures SpansTally(t0, spans[..k + 1], successMap) ==
      SpanStep(SpansTally(t0, spans[..k], successMap).value, spans[k], successMap)
  {
    var p := spans[..k + 1];
    assert p[..|p| - 1] == spans[..k];
    assert p[|p| - 1] == spans[k];
  }

  lemma {:induction false} SpansTallyFailsAfter(t0: Tally, spans: seq<Span>, n: nat, successMap: map<string, bool>)
    requires n <= |spans| && SpansTally(t0, spans[..n], successMap).Failure?
    ensures SpansTally(t0, spans, successMap).Failure?
    decreases |spans| - n
  {
    if n < |spans| {
      var p := spans[..n + 1];
      assert p[..|p| - 1] == spans[..n];
      SpansTallyFailsAfter(t0, spans, n + 1, successMap);
    } else {
      assert spans[..n] == spans;
    }
  }

  lemma FlatEntriesAt(items: seq<PyValue>, i: nat, repr: PyValue -> string)
    requires i < |items| && FlatEntries(items[..i], repr).Success?
    ensures FlatEntries(items[..i + 1], repr) == FlatEntry(FlatEntries(items[..i], repr).value, items[i], repr)
  {
    var p := items[..i + 1];
    assert p[..|p| - 1] == items[..i];
    assert p[|p| - 1] == items[i];
  }

  lemma {:induction false} FlatEntriesFailsAfter(items: seq<PyValue>, n: nat, repr: PyValue -> string)
    requires n <= |items| && FlatEntries(items[..n], repr).Failure?
    ensures FlatEntries(items, repr).Failure?
    decreases |items| - n
  {
    if n < |items| {
      var p := items[..n + 1];
      assert p[..|p| - 1] == items[..n];
      FlatEntriesFailsAfter(items, n + 1, repr);
    } else {
      assert items[..n] == items;
    }
  }
}
