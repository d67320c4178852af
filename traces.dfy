/**
 * Grouping the exported spans into traces (`extract_traces` in smoltrace/core.py) and
 * the per-test trace summary (`create_enhanced_trace_info`).
 */
module Traces {
  import opened Wrappers
  import opened Python
  import opened Seqs
  import opened OrderedDict
  import opened Spans

  const CostKey: string := "gen_ai.usage.cost.total"
  const TestIdKey: string := "test.id"

  /**
   * A trace dictionary: its id, the run it belongs to, its spans and its totals
   * (`total_tokens`, `total_duration_ms`, `total_cost_usd`), each absent or a value.
   */
  datatype Trace = Trace(
    traceId: string,
    runId: string,
    spans: seq<Span>,
    totalTokens: Option<PyValue>,
    totalDurationMs: Option<PyValue>,
    totalCostUsd: Option<PyValue>)

  /**
   * The entry of one trace id in `traces_by_id` while spans are added. The duration
   * total starts as the integer 0 and becomes a float once a duration is added.
   */
  datatype Group = Group(spans: seq<Span>, tokens: int, durationMs: real, durationAdded: bool, costUsd: real)

  const NewGroup: Group := Group([], 0, 0.0, false, 0.0)

  // ---------------------------------------------------------------------------
  // One span's contribution
  // ---------------------------------------------------------------------------

  /** `int(attrs["llm.token_count.total"])`, or 0 when the attribute is absent. */
  function SpanTokens(s: Span): Option<int>
  {
    if TokenCountKey in s.attributes then ToInt(s.attributes[TokenCountKey]) else Some(0)
  }

  /** `float(span["duration_ms"])`, or 0 when the key is absent. */
  function SpanDuration(s: Span): Option<real>
  {
    if s.durationMs.Some? then ToFloat(s.durationMs.value) else Some(0.0)
  }

  /** `float(attrs["gen_ai.usage.cost.total"])`, or 0 when the attribute is absent. */
  function SpanCost(s: Span): Option<real>
  {
    if CostKey in s.attributes then ToFloat(s.attributes[CostKey]) else Some(0.0)
  }

  /** None of the three conversions raises. */
  predicate Convertible(s: Span)
  {
    SpanTokens(s).Some? && SpanDuration(s).Some? && SpanCost(s).Some?
  }

  /** Appends the span to its group and adds its present totals; a failed conversion raises. */
  function AddSpan(g: Group, s: Span): (r: Result<Group>)
    ensures r.Success? <==> Convertible(s)
    ensures r.Success? ==> r.value.spans == g.spans + [s]
  {
    if !Convertible(s) then Failure("conversion of a span total failed")
    else
      Success(Group(
        g.spans + [s],
        g.tokens + SpanTokens(s).value,
        g.durationMs + SpanDuration(s).value,
        g.durationAdded || s.durationMs.Some?,
        g.costUsd + SpanCost(s).value))
  }

  /** The group that a sequence of spans of one trace adds up to. */
  function Summarize(ss: seq<Span>): Result<Group>
    decreases |ss|
  {
    if ss == [] then Success(NewGroup)
    else
      var g := Summarize(ss[..|ss| - 1]);
      if g.Failure? then g else AddSpan(g.value, ss[|ss| - 1])
  }

  lemma SummarizeSnoc(f: seq<Span>, s: Span)
    requires Summarize(f).Success?
    ensures Summarize(f + [s]) == AddSpan(Summarize(f).value, s)
  {
    assert (f + [s])[..|f + [s]| - 1] == f;
  }

  function TokenSum(ss: seq<Span>): int
    decreases |ss|
  {
    if ss == [] then 0 else TokenSum(ss[..|ss| - 1]) + SpanTokens(ss[|ss| - 1]).GetOr(0)
  }

  function DurationSum(ss: seq<Span>): real
    decreases |ss|
  {
    if ss == [] then 0.0 else DurationSum(ss[..|ss| - 1]) + SpanDuration(ss[|ss| - 1]).GetOr(0.0)
  }

  function CostSum(ss: seq<Span>): real
    decreases |ss|
  {
    if ss == [] then 0.0 else CostSum(ss[..|ss| - 1]) + SpanCost(ss[|ss| - 1]).GetOr(0.0)
  }

  /**
   * The reported `total_duration_ms` of a trace's spans: the integer 0 while no span has
   * a `duration_ms`, otherwise the float sum of the present durations.
   */
  function DurationTotal(ss: seq<Span>): PyValue
  {
    if exists i :: 0 <= i < |ss| && ss[i].durationMs.Some? then PyFloat(DurationSum(ss)) else PyInt(0)
  }

  /** A group holds exactly its spans, in order. */
  lemma {:induction false} SummarizeSpans(ss: seq<Span>)
    requires Summarize(ss).Success?
    ensures Summarize(ss).value.spans == ss
    decreases |ss|
  {
    if ss != [] {
      var init := ss[..|ss| - 1];
      SummarizeSpans(init);
      assert ss == init + [ss[|ss| - 1]];
    }
  }

  /** A group's duration is a float exactly when one of its spans has a duration. */
  lemma {:induction false} SummarizeDurationAdded(ss: seq<Span>)
    requires Summarize(ss).Success?
    ensures Summarize(ss).value.durationAdded <==> exists i :: 0 <= i < |ss| && ss[i].durationMs.Some?
    decreases |ss|
  {
    if ss != [] {
      var init := ss[..|ss| - 1];
      SummarizeDurationAdded(init);
      assert forall i :: 0 <= i < |init| ==> init[i] == ss[i];
    }
  }

  /** A group's totals are the sums of its spans' present totals; absent ones add 0. */
  lemma {:induction false} SummarizeSums(ss: seq<Span>)
    requires Summarize(ss).Success?
    ensures Summarize(ss).value.tokens == TokenSum(ss)
    ensures Summarize(ss).value.durationMs == DurationSum(ss)
    ensures Summarize(ss).value.costUsd == CostSum(ss)
    decreases |ss|
  {
    if ss != [] {
      SummarizeSums(ss[..|ss| - 1]);
    }
  }

  /** Summing fails exactly when some span's total cannot be converted. */
  lemma {:induction false} SummarizeFails(ss: seq<Span>)
    ensures Summarize(ss).Failure? <==> exists i :: 0 <= i < |ss| && !Convertible(ss[i])
    decreases |ss|
  {
    if ss != [] {
      var init := ss[..|ss| - 1];
      SummarizeFails(init);
      assert forall i :: 0 <= i < |init| ==> init[i] == ss[i];
    }
  }

  // ---------------------------------------------------------------------------
  // Grouping
  // ---------------------------------------------------------------------------

  function TraceIds(spans: seq<Span>): (r: seq<string>)
    ensures |r| == |spans| && forall i :: 0 <= i < |spans| ==> r[i] == spans[i].traceId
  {
    seq(|spans|, i requires 0 <= i < |spans| => spans[i].traceId)
  }

  /** The test "this span belongs to trace `k`". */
  function InTrace(k: string): Span -> bool
  {
    (s: Span) => s.traceId == k
  }

  /** `traces_by_id` after the given spans were added in order. */
  function GroupSpans(spans: seq<Span>): Result<Dict<string, Group>>
    decreases |spans|
  {
    if spans == [] then Success([])
    else
      var d := GroupSpans(spans[..|spans| - 1]);
      if d.Failure? then d
      else
        var s := spans[|spans| - 1];
        match AddSpan(Get(d.value, s.traceId).GetOr(NewGroup), s)
        case Success(g) => Success(Put(d.value, s.traceId, g))
        case Failure(e) => Failure(e)
  }

  function ToTrace(id: string, g: Group, runId: string): Trace
  {
    Trace(id, runId, g.spans, Some(PyInt(g.tokens)),
          Some(if g.durationAdded then PyFloat(g.durationMs) else PyInt(0)),
          Some(PyFloat(g.costUsd)))
  }

  /** `list(traces_by_id.values())`, or the exception a conversion raised. */
  function TracesOf(spans: seq<Span>, runId: string): (r: Result<seq<Trace>>)
    ensures r.Success? ==> forall i :: 0 <= i < |r.value| ==> r.value[i].runId == runId
  {
    match GroupSpans(spans)
    case Failure(e) => Failure(e)
    case Success(d) => Success(seq(|d|, i requires 0 <= i < |d| => ToTrace(d[i].0, d[i].1, runId)))
  }

  /** Grouping fails exactly when some span's total cannot be converted. */
  lemma {:induction false} GroupSpansFails(spans: seq<Span>)
    ensures GroupSpans(spans).Failure? <==> exists i :: 0 <= i < |spans| && !Convertible(spans[i])
    decreases |spans|
  {
    if spans != [] {
      var init, s := spans[..|spans| - 1], spans[|spans| - 1];
      GroupSpansFails(init);
      GroupSpansFailStep(spans);
      UnconvertibleSnoc(spans);
    }
  }

  /** Some span is unconvertible exactly when one before the last is, or the last one is. */
  lemma UnconvertibleSnoc(spans: seq<Span>)
    requires spans != []
    ensures var init := spans[..|spans| - 1];
      (exists i :: 0 <= i < |spans| && !Convertible(spans[i])) <==>
      (exists i :: 0 <= i < |init| && !Convertible(init[i])) || !Convertible(spans[|spans| - 1])
  {
    var init := spans[..|spans| - 1];
    assert forall i :: 0 <= i < |init| ==> init[i] == spans[i];
  }

  /** One more span makes grouping fail when it already failed or the span cannot be converted. */
  lemma GroupSpansFailStep(spans: seq<Span>)
    requires spans != []
    ensures GroupSpans(spans).Failure? <==>
      GroupSpans(spans[..|spans| - 1]).Failure? || !Convertible(spans[|spans| - 1])
  {
  }

  /** No span of `ss` belongs to trace `k`, so its group is empty. */
  lemma FilterInTraceEmpty(ss: seq<Span>, k: string)
    requires k !in TraceIds(ss)
    ensures Filter(ss, InTrace(k)) == []
  {
    assert forall i :: 0 <= i < |ss| ==> TraceIds(ss)[i] != k;
    FilterNone(ss, InTrace(k));
  }

  /** `traces_by_id` after one more span: its group has the span added. */
  lemma GroupSpansStep(spans: seq<Span>)
    requires spans != [] && GroupSpans(spans).Success?
    ensures var init, s := spans[..|spans| - 1], spans[|spans| - 1];
      && GroupSpans(init).Success?
      && AddSpan(Get(GroupSpans(init).value, s.traceId).GetOr(NewGroup), s).Success?
      && GroupSpans(spans) == Success(Put(GroupSpans(init).value, s.traceId,
           AddSpan(Get(GroupSpans(init).value, s.traceId).GetOr(NewGroup), s).value))
  {
  }

  /** `traces_by_id` after one more span, from the state before it. */
  lemma GroupSpansSnoc(ss: seq<Span>, s: Span)
    requires GroupSpans(ss).Success?
    ensures GroupSpans(ss + [s]) ==
      match AddSpan(Get(GroupSpans(ss).value, s.traceId).GetOr(NewGroup), s)
      case Success(g) => Success(Put(GroupSpans(ss).value, s.traceId, g))
      case Failure(e) => Failure(e)
  {
    assert (ss + [s])[..|ss + [s]| - 1] == ss;
  }

  /** `traces_by_id` after the first `i + 1` spans, from the state after the first `i`. */
  lemma GroupSpansAt(spans: seq<Span>, i: nat)
    requires i < |spans| && GroupSpans(spans[..i]).Success?
    ensures GroupSpans(spans[..i + 1]) ==
      match AddSpan(Get(GroupSpans(spans[..i]).value, spans[i].traceId).GetOr(NewGroup), spans[i])
      case Success(g) => Success(Put(GroupSpans(spans[..i]).value, spans[i].traceId, g))
      case Failure(e) => Failure(e)
  {
    var p := spans[..i + 1];
    assert p[..|p| - 1] == spans[..i];
    assert p[|p| - 1] == spans[i];
  }

  /** Trace `k` has a group exactly when some span has id `k`. */
  lemma {:induction false} GroupExists(spans: seq<Span>, k: string)
    requires GroupSpans(spans).Success?
    ensures Get(GroupSpans(spans).value, k).Some? <==> k in TraceIds(spans)
    decreases |spans|
  {
    if spans != [] {
      var init, s := spans[..|spans| - 1], spans[|spans| - 1];
      GroupSpansStep(spans);
      var d0 := GroupSpans(init).value;
      GroupExists(init, k);
      var g := AddSpan(Get(d0, s.traceId).GetOr(NewGroup), s).value;
      assert TraceIds(spans) == TraceIds(init) + [s.traceId];
      if k == s.traceId {
        GetPutSame(d0, k, g);
      } else {
        GetPutOther(d0, s.traceId, g, k);
      }
    }
  }

  /** The group of trace `k` is the sum of exactly the spans with that id, in their order. */
  lemma {:induction false} GroupContents(spans: seq<Span>, k: string)
    requires GroupSpans(spans).Success?
    ensures var d := GroupSpans(spans).value;
      Get(d, k).Some? ==> Summarize(Filter(spans, InTrace(k))) == Success(Get(d, k).value)
    decreases |spans|
  {
    if spans != [] {
      var init, s := spans[..|spans| - 1], spans[|spans| - 1];
      GroupSpansStep(spans);
      var d0 := GroupSpans(init).value;
      GroupContents(init, k);
      var g0 := Get(d0, s.traceId).GetOr(NewGroup);
      var g := AddSpan(g0, s).value;
      var f := Filter(init, InTrace(k));
      if k == s.traceId {
        GetPutSame(d0, k, g);
        assert Filter(spans, InTrace(k)) == f + [s];
        if Get(d0, k).None? {
          GroupExists(init, k);
          FilterInTraceEmpty(init, k);
        }
        assert Summarize(f) == Success(g0);
        SummarizeSnoc(f, s);
      } else {
        GetPutOther(d0, s.traceId, g, k);
        assert Filter(spans, InTrace(k)) == f;
      }
    }
  }

  /** Groups appear in the order their trace ids are first seen. */
  lemma {:induction false} GroupKeys(spans: seq<Span>)
    requires GroupSpans(spans).Success?
    ensures Keys(GroupSpans(spans).value) == Dedup(TraceIds(spans))
    decreases |spans|
  {
    if spans != [] {
      var init, s := spans[..|spans| - 1], spans[|spans| - 1];
      GroupSpansStep(spans);
      var d0 := GroupSpans(init).value;
      GroupKeys(init);
      GroupExists(init, s.traceId);
      var g := AddSpan(Get(d0, s.traceId).GetOr(NewGroup), s).value;
      KeysPut(d0, s.traceId, g);
      DedupTraceIds(spans);
    }
  }

  /** The distinct trace ids after one more span. */
  lemma DedupTraceIds(spans: seq<Span>)
    requires spans != []
    ensures var init, k := spans[..|spans| - 1], spans[|spans| - 1].traceId;
      Dedup(TraceIds(spans)) == Dedup(TraceIds(init)) + (if k in TraceIds(init) then [] else [k])
  {
    var t := TraceIds(spans);
    assert t[..|t| - 1] == TraceIds(spans[..|spans| - 1]);
  }

  /**
   * `extract_traces`' result: one trace per distinct trace id in first-seen order, each
   * holding exactly the spans with its id, their token, duration and cost sums and the run id.
   */
  lemma TracesOfGrouping(spans: seq<Span>, runId: string)
    requires TracesOf(spans, runId).Success?
    ensures var ts := TracesOf(spans, runId).value;
      && |ts| == |Dedup(TraceIds(spans))|
      && (forall i :: 0 <= i < |ts| ==> ts[i].traceId == Dedup(TraceIds(spans))[i])
      && (forall i :: 0 <= i < |ts| ==> ts[i].spans == Filter(spans, InTrace(ts[i].traceId)))
      && (forall i :: 0 <= i < |ts| ==> ts[i].totalTokens == Some(PyInt(TokenSum(ts[i].spans))))
      && (forall i :: 0 <= i < |ts| ==> ts[i].totalDurationMs == Some(DurationTotal(ts[i].spans)))
      && (forall i :: 0 <= i < |ts| ==> ts[i].totalCostUsd == Some(PyFloat(CostSum(ts[i].spans))))
      && (forall i :: 0 <= i < |ts| ==> ts[i].runId == runId)
  {
    var d := GroupSpans(spans).value;
    var ts := TracesOf(spans, runId).value;
    GroupKeys(spans);
    PutUniqueKeys(d);
    forall i | 0 <= i < |ts|
      ensures ts[i].spans == Filter(spans, InTrace(ts[i].traceId))
      ensures ts[i].totalTokens == Some(PyInt(TokenSum(ts[i].spans)))
      ensures ts[i].totalDurationMs == Some(DurationTotal(ts[i].spans))
      ensures ts[i].totalCostUsd == Some(PyFloat(CostSum(ts[i].spans)))
    {
      GetUnique(d, i);
      GroupTrace(spans, d[i].0, d[i].1, runId);
    }
  }

  /** The trace built from the group of id `k` holds that id's spans and their sums. */
  lemma GroupTrace(spans: seq<Span>, k: string, g: Group, runId: string)
    requires GroupSpans(spans).Success? && Get(GroupSpans(spans).value, k) == Some(g)
    ensures var t := ToTrace(k, g, runId);
      && t.spans == Filter(spans, InTrace(k))
      && t.totalTokens == Some(PyInt(TokenSum(t.spans)))
      && t.totalDurationMs == Some(DurationTotal(t.spans))
      && t.totalCostUsd == Some(PyFloat(CostSum(t.spans)))
  {
    var f := Filter(spans, InTrace(k));
    GroupContents(spans, k);
    SummarizeSpans(f);
    SummarizeDurationAdded(f);
    SummarizeSums(f);
  }

  /** Keys produced from a duplicate-free key list are distinct. */
  lemma PutUniqueKeys(d: Dict<string, Group>)
    requires forall i, j :: 0 <= i < j < |Keys(d)| ==> Keys(d)[i] != Keys(d)[j]
    ensures UniqueKeys(d)
  {
    assert forall i :: 0 <= i < |d| ==> Keys(d)[i] == d[i].0;
  }

  /** With distinct keys, looking up the `i`-th key finds the `i`-th value. */
  lemma {:induction false} GetUnique<K, V>(d: Dict<K, V>, i: nat)
    requires UniqueKeys(d) && i < |d|
    ensures Get(d, d[i].0) == Some(d[i].1)
    decreases i
  {
    if i > 0 {
      assert d[0].0 != d[i].0;
      GetUnique(d[1..], i - 1);
    }
  }

  /** `extract_traces(span_exporter, run_id)`. */
  method ExtractTraces(exporter: InMemorySpanExporter?, runId: string) returns (r: Result<seq<Trace>>)
    ensures exporter == null ==> r == Success([])
    ensures exporter != null ==> (r.Success? <==> TracesOf(exporter.spans, runId).Success?)
    ensures exporter != null && r.Success? ==> r == TracesOf(exporter.spans, runId)
  {
    if exporter == null {
      return Success([]);
    }
    var spans := exporter.GetFinishedSpans();
    var tracesById: Dict<string, Group> := [];
    for i := 0 to |spans|
      invariant GroupSpans(spans[..i]) == Success(tracesById)
    {
      var span := spans[i];
      var traceId := span.traceId;
      ghost var before := tracesById;
      if traceId !in Keys(tracesById) {
        tracesById := Put(tracesById, traceId, NewGroup);
      }
      StepState(before, tracesById, traceId, NewGroup);
      var added := AddToGroup(Get(tracesById, traceId).value, span);
      if added.Failure? {
        FailAt(spans, i, runId);
        return Failure(added.error);
      }
      var g := added.value;
      StepState(before, tracesById, traceId, g);
      GroupSpansAt(spans, i);
      tracesById := Put(tracesById, traceId, g);
    }
    assert spans[..|spans|] == spans;
    r := Success(seq(|tracesById|, i requires 0 <= i < |tracesById| =>
      ToTrace(tracesById[i].0, tracesById[i].1, runId)));
  }

  /**
   * The loop body's update of one group: append the span, then add each present total,
   * raising when its conversion fails.
   */
  method AddToGroup(g0: Group, span: Span) returns (r: Result<Group>)
    ensures r.Success? <==> AddSpan(g0, span).Success?
    ensures r.Success? ==> r == AddSpan(g0, span)
  {
    var g := g0.(spans := g0.spans + [span]);
    var attrs := span.attributes;
    if TokenCountKey in attrs {
      var n := ToInt(attrs[TokenCountKey]);
      if n.None? {
        return Failure("int() of llm.token_count.total failed");
      }
      g := g.(tokens := g.tokens + n.value);
    }
    if span.durationMs.Some? {
      var x := ToFloat(span.durationMs.value);
      if x.None? {
        return Failure("float() of duration_ms failed");
      }
      g := g.(durationMs := g.durationMs + x.value, durationAdded := true);
    }
    if CostKey in attrs {
      var c := ToFloat(attrs[CostKey]);
      if c.None? {
        return Failure("float() of gen_ai.usage.cost.total failed");
      }
      g := g.(costUsd := g.costUsd + c.value);
    }
    return Success(g);
  }

  /** Before a span is added, its trace has a group: the old one or a fresh one. */
  lemma StepState(before: Dict<string, Group>, current: Dict<string, Group>, k: string, g: Group)
    requires current == if k !in Keys(before) then Put(before, k, NewGroup) else before
    ensures Get(current, k) == Some(Get(before, k).GetOr(NewGroup))
    ensures Put(current, k, g) == Put(before, k, g)
  {
    GetPutSame(before, k, NewGroup);
    if k !in Keys(before) {
      PutPut(before, k, NewGroup, g);
    }
  }

  /** A span whose totals cannot be converted makes the whole extraction fail. */
  lemma FailAt(spans: seq<Span>, i: nat, runId: string)
    requires i < |spans| && !Convertible(spans[i])
    ensures TracesOf(spans, runId).Failure?
  {
    GroupSpansFails(spans);
  }

  // ---------------------------------------------------------------------------
  // create_enhanced_trace_info
  // ---------------------------------------------------------------------------

  /** The summary of a test's trace, or `{}` when it has none. */
  datatype TraceInfo =
    | NoTraceInfo
    | TraceSummary(traceId: string, totalTokens: PyValue, durationMs: PyValue, costUsd: PyValue, spanCount: nat)

  /** The span's `test.id` attribute equals the test id. */
  predicate SpanOfTest(s: Span, testId: string)
  {
    TestIdKey in s.attributes && s.attributes[TestIdKey] == PyStr(testId)
  }

  predicate TraceOfTest(t: Trace, testId: string)
  {
    exists j :: 0 <= j < |t.spans| && SpanOfTest(t.spans[j], testId)
  }

  /** The summary fields, with `get`'s defaults for absent totals. */
  function Summary(t: Trace): TraceInfo
  {
    TraceSummary(t.traceId, t.totalTokens.GetOr(PyInt(0)), t.totalDurationMs.GetOr(PyInt(0)),
                 t.totalCostUsd.GetOr(PyFloat(0.0)), |t.spans|)
  }

  /** The index of the first trace with a span of the test, if any. */
  function FirstTraceOf(traceData: seq<Trace>, testId: string): (r: Option<nat>)
    ensures r.None? <==> forall i :: 0 <= i < |traceData| ==> !TraceOfTest(traceData[i], testId)
    ensures r.Some? ==>
      && r.value < |traceData|
      && TraceOfTest(traceData[r.value], testId)
      && forall j :: 0 <= j < r.value ==> !TraceOfTest(traceData[j], testId)
    decreases |traceData|
  {
    if traceData == [] then None
    else if TraceOfTest(traceData[0], testId) then Some(0)
    else
      var rest := FirstTraceOf(traceData[1..], testId);
      assert forall i :: 1 <= i < |traceData| ==> traceData[1..][i - 1] == traceData[i];
      match rest
      case None => None
      case Some(k) => Some(k + 1)
  }

  /** What `create_enhanced_trace_info` returns for a test. */
  function TraceInfoOf(traceData: seq<Trace>, testId: string): TraceInfo
  {
    match FirstTraceOf(traceData, testId)
    case None => NoTraceInfo
    case Some(i) => Summary(traceData[i])
  }

  /**
   * A test gets `{}` exactly when no trace has a span of it; otherwise the summary of
   * the first such trace, whose span count is that trace's number of spans.
   */
  lemma TraceInfoOfFirst(traceData: seq<Trace>, testId: string)
    ensures var info := TraceInfoOf(traceData, testId);
      && (info == NoTraceInfo <==> forall i :: 0 <= i < |traceData| ==> !TraceOfTest(traceData[i], testId))
      && (info != NoTraceInfo ==>
            exists i :: && 0 <= i < |traceData|
                        && TraceOfTest(traceData[i], testId)
                        && (forall j :: 0 <= j < i ==> !TraceOfTest(traceData[j], testId))
                        && info == Summary(traceData[i])
                        && info.spanCount == |traceData[i].spans|)
  {
    var r := FirstTraceOf(traceData, testId);
    if r.Some? {
      assert TraceInfoOf(traceData, testId) == Summary(traceData[r.value]);
    }
  }

  /** `create_enhanced_trace_info`: the summary of the first trace with a span of the test. */
  method CreateEnhancedTraceInfo(traceData: seq<Trace>, testId: string) returns (info: TraceInfo)
    ensures info == TraceInfoOf(traceData, testId)
  {
    var matching: Option<Trace> := None;
    var i := 0;
    while i < |traceData| && matching.None?
      invariant 0 <= i <= |traceData|
      invariant matching.None? ==> forall j :: 0 <= j < i ==> !TraceOfTest(traceData[j], testId)
      invariant matching.Some? ==>
        && 1 <= i && matching.value == traceData[i - 1]
        && TraceOfTest(traceData[i - 1], testId)
        && forall j :: 0 <= j < i - 1 ==> !TraceOfTest(traceData[j], testId)
    {
      var trace := traceData[i];
      var k := 0;
      while k < |trace.spans| && matching.None?
        invariant 0 <= k <= |trace.spans|
        invariant matching.None? ==> forall j :: 0 <= j < k ==> !SpanOfTest(trace.spans[j], testId)
        invariant matching.Some? ==> matching.value == trace && TraceOfTest(trace, testId)
      {
        if SpanOfTest(trace.spans[k], testId) {
          matching := Some(trace);
        }
        k := k + 1;
      }
      i := i + 1;
    }
    if matching.None? {
      return NoTraceInfo;
    }
    return Summary(matching.value);
  }
}
