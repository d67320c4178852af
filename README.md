# smoltrace: a Dafny model of the evaluation and aggregation core

smoltrace evaluates smolagents agents ("tool" and "code" agents) against a set of test
cases. It records OpenTelemetry spans for each run and publishes results, traces,
metrics and a leaderboard row to the Hugging Face hub. This project models the
deterministic core of that pipeline and proves what it computes:

- **Event stream to tool usage** (`steps.dfy`, after `smoltrace/core.py`). The agent's
  stream is a sequence of `Action`, `FinalAnswer`, `Planning` and `Other` events. The
  four `name\s*\(` regexes and `\bfinal_answer\s*\(` are string predicates.
  `extract_tools_from_code`, `extract_tools_from_action_step` and
  `analyze_streamed_steps` are loops proved against recursive specification
  functions. `is_final_answer_called_in_action_step` is a function: its early-return
  search of the tool calls is an `exists`.
- **Scoring** (`scoring.dfy`). This covers the `correct_tool`, `response_correct` and
  `success` rules of `evaluate_single_test`, its error path, `_filter_tests`, and the
  loop in `run_evaluation` that stamps `run_id` and `test_index` on each result.
- **Span export** (`spans.dfy`, after `smoltrace/otel.py`). `InMemorySpanExporter` is a
  class whose buffer grows by one dictionary per exported span. `_to_dict` gives hex
  ids and the `duration_ms` rule.
- **Trace grouping** (`traces.dfy`). `extract_traces` groups spans by trace id in
  first-seen order and sums the token, duration and cost totals. One failed
  conversion fails the whole call. `create_enhanced_trace_info` summarises the first
  trace that has a span of a test.
- **Metric collector** (`collector.dfy`). `InMemoryMetricReaderCollector` is a class with
  a `metrics` field. `collect_all` and `_aggregate_from_traces` are loops over traces
  and spans. They compute the six summary metrics. `flatten_attributes` decodes OTLP
  attribute lists.
- **GPU aggregation** (`gpu.dfy`, after `smoltrace/utils.py`). The nested resource →
  scope → metric → data-point loops of `aggregate_gpu_metrics` fill a by-name map.
  The map yields averages and maxima.
- **Publishing** (`leaderboard.dfy`). A clock reading is passed in to
  `generate_dataset_names`. `compute_leaderboard_row` is modelled with its lenient
  coercions, `flatten_results_for_hf` as a loop, and the append step of
  `update_leaderboard` on a class holding the hub's datasets.
- **Tools** (`tools.dfy`). The four built-in tool names, `WeatherTool.forward`, and
  `TimeTool.forward` with the clock as a parameter.

Supporting modules:

- `wrappers.dfy`: `Option`, `Result`, and a left fold over a sequence that can fail.
- `seqs.dfy`: counting, filtering, deduplication and flattening.
- `ordered_dict.dfy`: Python's insertion-ordered `dict`.
- `text.dfy`: whitespace, ASCII case, digits, and `int()`/`float()` of text.
- `python.dfy`: dynamic values with Python truthiness, `int()`, `float()` and `str()`.
- `clock.dfy`: `strftime`/`isoformat` of a date-time reading.

Python exceptions that escape a function are `Failure` results. Exceptions the code
catches become the value the handler substitutes. Numbers that the code adds as
floats are `real`; token counts are `int`.

## Model

| member | source | states |
|---|---|---|
| Tools.WeatherForwardKnown | smoltrace/tools.py:22-29 | each of the five known locations gets its fixed weather string |
| Tools.WeatherForwardUnknown | smoltrace/tools.py:29 | any other location gets `"Weather data for " + location + ": 22°C, Clear"`, which contains the location and reads it back |
| Tools.WeatherForwardInjective | smoltrace/tools.py:29 | distinct unknown locations get distinct answers (the function is total) |
| Tools.TimeForwardShape | smoltrace/tools.py:65-66 | the answer is `"Current time in " + tz + ": "` followed by the 19-character `YYYY-MM-DD HH:MM:SS` of the clock reading |
| Steps.CodePatternsAreToolNames | smoltrace/core.py:161-166 | the code patterns name exactly the four built-in tools, in order |
| Clock.CompactShape | smoltrace/utils.py:40 | `%Y%m%d_%H%M%S` always has 15 characters with `_` at index 8 |
| Clock.CompactInjective | smoltrace/utils.py:40 | two readings with the same compact stamp agree to the second |
| Clock.DisplayShape | smoltrace/tools.py:66 | `%Y-%m-%d %H:%M:%S` always has 19 characters with its separators in place |
| Steps.FindAllFrom | smoltrace/core.py:168 | `re.findall` positions are increasing match starts of `name\s*\(` |
| Steps.FindAllFromExact | smoltrace/core.py:168 | scanning from `j` finds exactly the match positions at or after `j` |
| Steps.FindAllExact | smoltrace/core.py:168 | for a plain name, `findall` yields exactly the positions where the pattern matches |
| Steps.ExtractToolsFromCode | smoltrace/core.py:158-172 | the loop's list is one name per match, grouped by pattern in pattern order |
| Steps.CodeToolsMembers | smoltrace/core.py:167-171 | only the scanned names are reported |
| Steps.CodeToolsCount | smoltrace/core.py:167-171 | with distinct names, each is reported exactly as often as its pattern matches |
| Steps.ExtractedCodeTools | smoltrace/core.py:158-172 | every entry is a built-in tool name, counts equal match counts, and `final_answer` never appears |
| Steps.CallNamesMembers | smoltrace/core.py:222-236 | a name is reported iff some call carries it and it is not `final_answer` |
| Steps.ExtractToolsFromActionStep | smoltrace/core.py:217-243 | the loop returns the call names, then (code agents with code) the code's tools |
| Steps.NoFinalAnswerInActionTools | smoltrace/core.py:235-241 | `final_answer` is never among the extracted tools |
| Steps.AnyFinalAnswerCall | smoltrace/core.py:249-252 | true iff some tool call is named `final_answer` |
| Steps.SearchFinalAnswer | smoltrace/core.py:255 | true iff `\bfinal_answer\s*\(` matches at some index |
| Steps.IsFinalAnswerCalledInActionStep | smoltrace/core.py:246-258 | true iff a call is named `final_answer` or (code agent with code) the code matches `\bfinal_answer\s*\(` |
| Steps.AnalyzeStreamedSteps | smoltrace/core.py:175-214 | tools are the per-action extractions in order; the final-answer flag is set iff some event signals an answer; steps count the action, answer and planning events |
| Steps.FinalAnswerTakesAStep | smoltrace/core.py:198-212 | a stream that signals a final answer counts at least one step |
| Steps.StreamToolsConcat | smoltrace/core.py:201 | the tools of two stretches of a stream are concatenated |
| Steps.NoFinalAnswerInStreamTools | smoltrace/core.py:201 | no stream reports `final_answer` as a tool |
| Steps.StepCountBound | smoltrace/core.py:198-212 | steps are at most the events, and equal them iff no event is of another kind |
| Steps.StepCountConcat | smoltrace/core.py:198-212 | step counts add across stretches |
| Python.Str | smoltrace/otel.py:270 | `str()` of a string is itself, and of an integer reads back as that integer |
| Scoring.CorrectToolMonotone | smoltrace/core.py:319-327 | using more tools never makes a correct choice incorrect |
| Scoring.CorrectToolNamed | smoltrace/core.py:323-325 | a named tool is correct iff used at least `expected_calls or 1` times, and then it was used |
| Scoring.CorrectToolUsedSome | smoltrace/core.py:321-327 | with `multiple` or no expected tool, a correct choice used some tool |
| Scoring.AnyKeyword | smoltrace/core.py:331-333 | true iff some lower-cased keyword occurs in the lower-cased response |
| Scoring.ResponseCorrectKeyword | smoltrace/core.py:328-336 | a keyword occurring as written makes the answer correct |
| Scoring.ResponseCorrectIgnoresCase | smoltrace/core.py:330-333 | the verdict ignores the case of the answer |
| Scoring.ResponseCorrectMonotone | smoltrace/core.py:328-336 | more keywords never make a correct answer incorrect |
| Scoring.EvaluateSingleTest | smoltrace/core.py:261-354 | the dictionary updated step by step equals the scoring function |
| Scoring.EvaluatedSuccess | smoltrace/core.py:338-343 | success implies no error, a tool used, a final answer, at least one step, a correct tool and a correct answer |
| Scoring.EvaluatedSuccessUsedTool | smoltrace/core.py:323-343 | a successful test that expected a named tool used it |
| Scoring.EvaluatedRaised | smoltrace/core.py:276-351 | a run that raised is unsuccessful, has the message as its error, and keeps the initial fields |
| Scoring.EvaluatedCompleted | smoltrace/core.py:314-343 | a completed run has no error; success iff tool called, correct tool, final answer and correct response |
| Scoring.FilterTestsMembers | smoltrace/core.py:492-502 | a test is kept iff it is meant for this agent type or `both` and, when a subset is given, has that difficulty |
| Scoring.FilterTestsConcat | smoltrace/core.py:497-500 | filtering keeps the dataset order |
| Scoring.FilterTestsIdempotent | smoltrace/core.py:492-502 | filtering the kept tests keeps them all |
| Scoring.StampResults | smoltrace/core.py:445-456 | each result gets the run id, its running index and (with tracing) its trace summary |
| Scoring.StampedIndexed | smoltrace/core.py:445-451 | within each agent type's list the indices continue from the previous lists |
| Scoring.StampedIndices | smoltrace/core.py:445-451 | across agent types in order the results carry 0, 1, 2, …, and none is gained or lost |
| Spans.DurationMs | smoltrace/otel.py:64 | `(end - start) / 1e6` when both times are set, else the falsy integer 0 |
| Spans.DurationNonNegative | smoltrace/otel.py:64 | a span that ends no earlier than it starts has a non-negative duration |
| Spans.ToDictFields | smoltrace/otel.py:56-80 | hex ids read back as the SDK's ids, a parent id iff a parent, the duration rule, and the token total copied iff present |
| Spans.TraceIdStringsFaithful | smoltrace/otel.py:58 | two spans get the same trace-id string iff they belong to the same trace |
| Spans.ToDictsConcat | smoltrace/otel.py:45-48 | exporting two batches in turn stores what exporting them together would |
| Spans.InMemorySpanExporter.constructor | smoltrace/otel.py:42-43 | the buffer starts empty |
| Spans.InMemorySpanExporter.Export | smoltrace/otel.py:45-48 | the buffer becomes the old buffer followed by the batch's dictionaries in order, and the result is SUCCESS |
| Spans.InMemorySpanExporter.GetFinishedSpans | smoltrace/otel.py:53-54 | returns the whole buffer |
| Traces.AddSpan | smoltrace/core.py:556-565 | adding a span succeeds iff its totals convert, and appends it to the group's spans |
| Traces.SummarizeSpans | smoltrace/core.py:556 | a group holds exactly its spans in order |
| Traces.SummarizeDurationAdded | smoltrace/core.py:562-563 | a group's duration was added to iff some span has a duration |
| Traces.SummarizeSums | smoltrace/core.py:558-565 | a group's totals are the sums of its spans' present totals |
| Traces.SummarizeFails | smoltrace/core.py:559-565 | summing fails iff some span's total cannot be converted |
| Traces.TracesOf | smoltrace/core.py:543-567 | every trace carries the run id |
| Traces.GroupSpansFails | smoltrace/core.py:544-565 | grouping fails iff some span cannot be converted |
| Traces.GroupExists | smoltrace/core.py:545-554 | a trace id has a group iff some span has that id |
| Traces.GroupContents | smoltrace/core.py:544-565 | each group sums exactly the spans with its id, in their order |
| Traces.GroupKeys | smoltrace/core.py:543-567 | groups appear in the order their ids are first seen |
| Traces.TracesOfGrouping | smoltrace/core.py:527-567 | one trace per distinct id, first-seen order, holding exactly its spans, their token, duration and cost sums (`total_duration_ms` the integer 0 when no span has a duration) and the run id |
| Traces.FailAt | smoltrace/core.py:559-565 | one unconvertible span makes the whole extraction fail |
| Traces.ExtractTraces | smoltrace/core.py:527-567 | no exporter gives `[]`; otherwise the in-place grouping loop gives the grouping function |
| Traces.AddToGroup | smoltrace/core.py:556-565 | the loop body's update of one group equals the group function |
| Traces.FirstTraceOf | smoltrace/core.py:640-648 | the index of the first trace with a span of the test, or none iff there is none |
| Traces.TraceInfoOfFirst | smoltrace/core.py:635-660 | `{}` iff no trace has a span of the test, else the first such trace's summary, with span_count its number of spans |
| Traces.CreateEnhancedTraceInfo | smoltrace/core.py:635-660 | the search loop with early exit returns the specified summary |
| Collector.Outcomes | smoltrace/otel.py:148 | the `(test_id, success)` pairs of all results, in order |
| Collector.SuccessMapLast | smoltrace/otel.py:148 | a test id is in the lookup iff some result has it, and maps to the last such result's success |
| Collector.SpanStepCounts | smoltrace/otel.py:166-187 | a test span adds one test, a success iff the lookup says true, and the convertible tool calls and steps (absent ones count as `"0"`, unparseable ones are skipped); other spans change nothing |
| Collector.SpansTallyTests | smoltrace/otel.py:166-172 | over one trace's spans, test_count grows by the number of spans with a truthy `test.id` and total_success by the number of those whose id the results map to true |
| Collector.SpansTallyBound | smoltrace/otel.py:166-173 | successes never exceed tests over a trace's spans |
| Collector.TracesTallyBound | smoltrace/otel.py:158-187 | total_success never exceeds test_count |
| Collector.SuccessSpans | smoltrace/otel.py:169-172 | the successful test spans are never more than the test spans |
| Collector.TracesTallyCounts | smoltrace/otel.py:158-172 | over all traces, test_count is the number of test spans, total_success the number of those the results map to true, and the token and cost totals the sums of the truthy trace totals converted |
| Collector.TracesTallyConcat | smoltrace/otel.py:158-187 | tallying two runs of traces in turn equals tallying them together |
| Collector.TracesTallyEmpty | smoltrace/otel.py:158-166 | traces with no spans and no truthy totals change nothing |
| Collector.MetricsOf | smoltrace/otel.py:195-240 | always six metrics with the fixed names in order, one data point each |
| Collector.MetricsOfRates | smoltrace/otel.py:190-238 | the success rate lies between 0 and 100; CO2 is 0.0004 g per thousand tokens; rates, averages and CO2 are 0 without tests or tokens |
| Collector.AggregatedBound | smoltrace/otel.py:146-242 | the reported successes never exceed the reported test count |
| Collector.AggregatedCounts | smoltrace/otel.py:146-233 | the reported success, test, token and cost values are the whole-run counts and sums over the traces |
| Collector.FlattenedNotList | smoltrace/otel.py:249-253 | a dict is returned unchanged; any other non-list gives `{}` |
| Collector.FlatEntryDropped | smoltrace/otel.py:254-264 | malformed entries and tagless values are dropped |
| Collector.FlatEntryStores | smoltrace/otel.py:255-264 | a well-formed entry stores its value; a repeated key is overwritten in place and other keys are kept |
| Collector.FlatEntriesUnique | smoltrace/otel.py:253-270 | a flattened list never holds a key twice |
| Collector.FlatValueOtlp | smoltrace/otel.py:260-264 | each typed scalar decodes to itself |
| Collector.FlattenToOtlp | smoltrace/otel.py:244-272 | round trip: an OTLP attribute list built from a flat dict flattens back to that dict |
| Collector.InMemoryMetricReaderCollector.constructor | smoltrace/otel.py:127-128 | the stored metrics start empty |
| Collector.InMemoryMetricReaderCollector.AggregateFromTraces | smoltrace/otel.py:146-242 | the counter loops give the aggregation function's metrics or its exception |
| Collector.InMemoryMetricReaderCollector.SpansPass | smoltrace/otel.py:166-187 | the inner span loop equals the span tally |
| Collector.InMemoryMetricReaderCollector.CollectAll | smoltrace/otel.py:130-144 | no traces gives `[]` and keeps the metrics; otherwise it stores and returns the aggregate, or `[]` when aggregating raises |
| Collector.InMemoryMetricReaderCollector.FlattenAttributes | smoltrace/otel.py:244-272 | the filling loop gives the flattening function's dict or exception |
| Gpu.Points | smoltrace/utils.py:88-93 | the data points of `gauge` when present, else those of `sum`, else none |
| Gpu.Max | smoltrace/utils.py:112-113 | the maximum is one of the values and at least each of them |
| Gpu.MaxAtLeastAvg | smoltrace/utils.py:109-113 | avg and max are defined together, and max is at least avg |
| Gpu.AggregatedMaxAtLeastAvg | smoltrace/utils.py:115-123 | each reported maximum is defined with its average and is at least it |
| Gpu.MetricStepGroup | smoltrace/utils.py:87-106 | one metric appends its values under its own name and touches no other |
| Gpu.MetricStepsGroup | smoltrace/utils.py:84-106 | after a run of metrics each name holds its old values followed by those of the metrics of that name, in order |
| Gpu.AggregateGpuMetrics | smoltrace/utils.py:60-123 | the nested loops give the aggregation function's summary (all None for no resource metrics), or its exception |
| Gpu.AppendPoints | smoltrace/utils.py:98-106 | the point loop appends the converted values to the name's list, and fails iff a conversion fails |
| Gpu.MetricFailure | smoltrace/utils.py:98-103 | a point that fails to convert makes the whole aggregation raise |
| Leaderboard.DatasetNamesShape | smoltrace/utils.py:38-45 | the four names are pairwise distinct, the leaderboard is `username/smoltrace-leaderboard`, and the three run names share one 15-character timestamp |
| Leaderboard.DatasetNamesInjective | smoltrace/utils.py:38-45 | equal results names mean the same user and the same second |
| Leaderboard.Number | smoltrace/utils.py:157 | a value can be added iff it is an int, a bool or a float |
| Leaderboard.TokenTerm | smoltrace/utils.py:152-157 | the token term is missing (TypeError) iff present, not a string and not a number |
| Leaderboard.FloatTerm | smoltrace/utils.py:159-172 | the same for duration and cost |
| Leaderboard.TermsOfText | smoltrace/utils.py:152-172 | the text of an integer adds that integer; an unparseable text adds 0 |
| Leaderboard.TraceTotalsShift | smoltrace/utils.py:151-172 | starting from other totals shifts the result by them, and failure does not depend on them |
| Leaderboard.TraceTotalsConcat | smoltrace/utils.py:151-172 | the totals over two runs of traces add up |
| Leaderboard.TraceTotalsFails | smoltrace/utils.py:151-172 | the loop raises iff some trace has a total that cannot be added |
| Leaderboard.Co2SkipsOthers | smoltrace/utils.py:180-181 | aggregates with other names contribute nothing |
| Leaderboard.Co2OfCollectedMetrics | smoltrace/utils.py:178-189 | fed the collector's metrics, the row's CO2 is the collector's estimate from tokens |
| Leaderboard.Successes | smoltrace/utils.py:208 | successes never exceed the results |
| Leaderboard.SuccessesConcat | smoltrace/utils.py:208 | successes of two lists add up |
| Leaderboard.PerTestTimes | smoltrace/utils.py:210-211 | an average times the number of tests gives back the total |
| Leaderboard.PerTestShare | smoltrace/utils.py:145 | a share of at most the whole lies in [0, 1], and a hundred times it is the percentage |
| Leaderboard.SelectedResultsCount | smoltrace/utils.py:140-142 | for `both`, lengths and successes of the tool and code lists add up |
| Leaderboard.RowOfParts | smoltrace/utils.py:126-276 | the row succeeds iff trace totals, CO2 and GPU aggregation all succeed, and is built from them |
| Leaderboard.RowCounts | smoltrace/utils.py:144-229 | num_tests is the results' length, successful + failed = num_tests, and success_rate is the percentage in [0, 100] |
| Leaderboard.RowWithoutTests | smoltrace/utils.py:144-237 | with no tests the success rate and every average are 0 |
| Leaderboard.RowTotals | smoltrace/utils.py:146-239 | totals, CO2 and GPU are copied, and each average times num_tests is its total (tokens truncated) |
| Leaderboard.ComputeLeaderboardRow | smoltrace/utils.py:126-276 | the row computed by loops equals the row function, or its exception |
| Leaderboard.SumTraceTotals | smoltrace/utils.py:148-172 | the trace loop gives the trace totals or their exception |
| Leaderboard.SumCo2 | smoltrace/utils.py:178-189 | the CO2 loop gives the CO2 total (0 without `aggregates`) or its exception |
| Leaderboard.SumCo2Points | smoltrace/utils.py:182-189 | the data-point loop adds each point's value, and raises iff one cannot be added |
| Leaderboard.FlatRowsConcat | smoltrace/utils.py:308-331 | rows of two lists are concatenated |
| Leaderboard.FlattenResultsForHf | smoltrace/utils.py:303-332 | one row per result, agent type by agent type in order, each copying its result's fields, the trace summary included (`None` when the result was never stamped) |
| Leaderboard.LeaderboardHub.constructor | smoltrace/utils.py:288-289 | the hub starts with the given datasets |
| Leaderboard.LeaderboardHub.UpdateLeaderboard | smoltrace/utils.py:279-299 | no repository changes nothing; otherwise the old rows (none for a missing repository) stay, the new row goes last, and the length grows by one |

## Left out

- Agents, the model back ends, `agent.run`, the Hugging Face hub (`load_dataset`, `push_to_hub`, `login`), environment variables and the user lookup are external. The agent's run is a parameter: an event stream and a response, or the message of the exception it raised. The submitting user is a parameter of the row.
- Clocks are parameters. `compute_leaderboard_row` is given one reading for both `evaluation_date` and `notes`. `flatten_results_for_hf` dates every row with one reading, where Python reads the clock per row.
- OpenTelemetry objects: tracer spans, `add_event`, `set_attribute`, meters, `force_flush` and `setup_inmemory_otel` are external. `evaluate_single_test`'s span attributes reach the collector only through the spans given to it.
- `_to_dict` keeps the attributes as values. It does not model `safe_attrs_to_dict`'s stringification, its protobuf branch, `events`, `status`, `kind`, `resource` or `tool_output`. The attribute objects come from a foreign SDK.
- Spans.InMemorySpanExporter.GetFinishedSpans: returns the buffer as a value. Python hands out the list object itself, so later exports showing through an earlier result (aliasing) are not modelled.
- Results are returned as new values instead of mutating the caller's dictionaries in place: the stamping loop, `evaluate_single_test` and `extract_traces`. Aliasing between them is not modelled.
- `round(...)` to 2, 4 or 6 places in `compute_leaderboard_row` and `_aggregate_from_traces` is not modelled. Values are kept unrounded as `real`. `int(avg_tokens)` is modelled as truncation toward zero.
- Floats are mathematical reals: no overflow, `inf`, `nan` or binary rounding. `float()` of text accepts decimal and exponent forms only, without `inf`, `nan` or underscores. `int()` of text accepts ASCII digits with a sign and surrounding whitespace, without underscores.
- Python.Str: the rendering of floats, lists and dicts is supplied by the caller, because Python's shortest round-trip `repr` of floats is not modelled.
- Case folding (`lower()`) is ASCII only, and regex `\b` and `\w` use ASCII word characters.
- `int`/`float` result types of sums are merged: the leaderboard totals are `real` whether Python would produce an `int` or a `float`.
- `metric_data` is assumed to have the shape the collector and the GPU exporter produce: `aggregates` is a list of metric dictionaries, and `resourceMetrics` is a list of resource dictionaries. `compute_leaderboard_row` is not modelled on other shapes. A `metric_data` that is not a dict is `None`.
- `all_results` keys are strings, and its results are complete result dictionaries: a missing key raising `KeyError` is not modelled.
- `json.dumps` of the trace summary in `flatten_results_for_hf` is not modelled; the summary is kept as a value, `None` standing for the dumped `null`.
- Collector.FlatEntriesUnique: keys are told apart by value equality of the dynamic values, so `1`, `1.0` and `True` stay three keys where a Python dict merges them; OTLP attribute keys are strings, for which both agree.
- Collector.FlatEntryStores: a repeated key is recognised by the same value equality, with the same gap for keys of different numeric types.
- Error messages are not modelled: a `Failure` stands for the exception, whatever its text.
- `print`, verbose and debug output, and `traceback.print_exc` are not modelled.
- CalculatorTool uses Python `eval`, DuckDuckGoSearchTool uses the network, and `initialize_mcp_tools` uses a foreign client; none of them is modelled.
- `run_evaluation` is modelled only through its stamping loop. The rest is orchestration, and its unpacking of `setup_inmemory_otel` does not match that function's return value.
- `shutdown`, `_metric_to_dict`, `extract_metrics`, `load_prompt_config`, `push_results_to_hf`, `save_results_locally`, `print_agent_summary` and `print_combined_summary` are I/O or orchestration and are not part of this model.
- Gpu.MetricStepsGroup: grouping is proved for a run of metrics within one scope, not restated over the whole resource → scope → metric nesting; the nested loops are tied to it through the fold they are proved against.
