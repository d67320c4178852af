/**
 * Scoring one test case against an agent's run (`evaluate_single_test`), choosing the
 * test cases an agent type runs (`_filter_tests`) and the final pass of
 * `run_evaluation` that stamps every result with the run id, a running index and the
 * summary of its trace (smoltrace/core.py).
 */
module Scoring {
  import opened Wrappers
  import opened Text
  import opened Seqs
  import opened Steps
  import opened Traces

  /** A test case of the dataset, with the optional keys as `Option`s. */
  datatype TestCase = TestCase(
    id: string,
    difficulty: string,
    prompt: string,
    expectedTool: Option<string>,
    expectedToolCalls: Option<int>,
    expectedKeywords: seq<string>,
    agentType: Option<string>)

  /**
   * What running the agent on the prompt gives: the events of the streamed run and
   * the (already rendered) answer of the second run, or the message of an exception
   * raised by either run.
   */
  datatype AgentRun = Completed(events: seq<Event>, response: string) | Raised(message: string)

  /**
   * A result dictionary. `enhancedTraceInfo` is `None` until the run's end, `runId`
   * and `testIndex` are absent until then.
   */
  datatype TestResult = TestResult(
    testId: string,
    agentType: string,
    difficulty: string,
    prompt: string,
    success: bool,
    toolCalled: bool,
    correctTool: bool,
    finalAnswerCalled: bool,
    responseCorrect: bool,
    error: Option<string>,
    response: Option<string>,
    toolsUsed: seq<string>,
    steps: nat,
    enhancedTraceInfo: Option<TraceInfo>,
    runId: Option<string>,
    testIndex: Option<nat>)

  const MultipleTools: string := "multiple"

  // ---------------------------------------------------------------------------
  // The tool check
  // ---------------------------------------------------------------------------

  /** `expected_tool_calls` is truthy: present and not zero. */
  predicate CallsGiven(calls: Option<int>)
  {
    calls.Some? && calls.value != 0
  }

  /** `expected_calls or 1` where a count is demanded. */
  function MinCalls(calls: Option<int>): int
  {
    if CallsGiven(calls) then calls.value else 1
  }

  /** A named tool other than `multiple` is expected. */
  predicate NamedTool(tool: Option<string>)
  {
    tool.Some? && tool.value != [] && tool.value != MultipleTools
  }

  /**
   * `correct_tool`: with `multiple`, enough tool uses of any kind; with a named tool,
   * enough uses of that tool (at least one when no count is given); with none, any use.
   */
  function CorrectTool(tool: Option<string>, calls: Option<int>, toolsUsed: seq<string>): bool
  {
    if tool == Some(MultipleTools) then |toolsUsed| >= MinCalls(calls)
    else if NamedTool(tool) then
      if CallsGiven(calls) then Count(toolsUsed, tool.value) >= calls.value
      else Count(toolsUsed, tool.value) > 0
    else |toolsUsed| > 0
  }

  /** Using more tools never makes a correct tool choice incorrect. */
  lemma CorrectToolMonotone(tool: Option<string>, calls: Option<int>, a: seq<string>, b: seq<string>)
    requires CorrectTool(tool, calls, a)
    ensures CorrectTool(tool, calls, a + b)
  {
    if NamedTool(tool) {
      CountConcat(a, b, tool.value);
    }
  }

  /**
   * For a named tool and a count that is absent or not negative, the choice is
   * correct exactly when that tool was used at least `expected_calls or 1` times;
   * in particular the tool was used.
   */
  lemma CorrectToolNamed(tool: Option<string>, calls: Option<int>, toolsUsed: seq<string>)
    requires NamedTool(tool) && (calls.None? || calls.value >= 0)
    ensures CorrectTool(tool, calls, toolsUsed) <==> Count(toolsUsed, tool.value) >= MinCalls(calls)
    ensures CorrectTool(tool, calls, toolsUsed) ==> tool.value in toolsUsed
    ensures !CallsGiven(calls) ==> (CorrectTool(tool, calls, toolsUsed) <==> tool.value in toolsUsed)
  {
  }

  /** Without an expected tool, or with `multiple`, any correct choice used some tool. */
  lemma CorrectToolUsedSome(tool: Option<string>, calls: Option<int>, toolsUsed: seq<string>)
    requires !NamedTool(tool) && (calls.None? || calls.value >= 0)
    requires CorrectTool(tool, calls, toolsUsed)
    ensures |toolsUsed| > 0
  {
  }

  // ---------------------------------------------------------------------------
  // The answer check
  // ---------------------------------------------------------------------------

  /** `any(kw.lower() in response_lower for kw in keywords)`. */
  function AnyKeyword(keywords: seq<string>, responseLower: string): (r: bool)
    ensures r <==> exists k :: 0 <= k < |keywords| && Contains(responseLower, Lower(keywords[k]))
    decreases |keywords|
  {
    if keywords == [] then false
    else
      var init := keywords[..|keywords| - 1];
      assert forall k :: 0 <= k < |init| ==> init[k] == keywords[k];
      AnyKeyword(init, responseLower) || Contains(responseLower, Lower(keywords[|keywords| - 1]))
  }

  /** `response_correct`: no keywords means correct; otherwise some keyword occurs, ignoring case. */
  function ResponseCorrect(keywords: seq<string>, response: string): bool
  {
    if keywords == [] then true else AnyKeyword(keywords, Lower(response))
  }

  /** A keyword that occurs as written makes the answer correct. */
  lemma ResponseCorrectKeyword(keywords: seq<string>, response: string, k: nat)
    requires k < |keywords| && Contains(response, keywords[k])
    ensures ResponseCorrect(keywords, response)
  {
    ContainsLower(response, keywords[k]);
  }

  /** The check ignores the case of the answer. */
  lemma ResponseCorrectIgnoresCase(keywords: seq<string>, response: string)
    ensures ResponseCorrect(keywords, Lower(response)) == ResponseCorrect(keywords, response)
  {
    LowerIdempotent(response);
  }

  /** More keywords never make a correct answer incorrect. */
  lemma ResponseCorrectMonotone(a: seq<string>, b: seq<string>, response: string)
    requires a != [] && ResponseCorrect(a, response)
    ensures ResponseCorrect(a + b, response)
  {
    var k :| 0 <= k < |a| && Contains(Lower(response), Lower(a[k]));
    assert (a + b)[k] == a[k];
  }

  // ---------------------------------------------------------------------------
  // evaluate_single_test
  // ---------------------------------------------------------------------------

  /** The result before the agent runs: nothing called, the answer presumed correct. */
  function InitialResult(tc: TestCase, agentType: string): TestResult
  {
    TestResult(tc.id, agentType, tc.difficulty, tc.prompt, false, false, false, false, true,
               None, None, [], 0, None, None, None)
  }

  /** The result `evaluate_single_test` returns for a run. */
  function Evaluated(tc: TestCase, agentType: string, run: AgentRun): TestResult
  {
    var r0 := InitialResult(tc, agentType);
    match run
    case Raised(message) => r0.(error := Some(message))
    case Completed(events, response) =>
      var tools := StreamTools(events, agentType);
      var toolCalled := |tools| > 0;
      var final := exists i :: 0 <= i < |events| && SignalsFinalAnswer(events[i], agentType);
      var correctTool := CorrectTool(tc.expectedTool, tc.expectedToolCalls, tools);
      var responseCorrect := ResponseCorrect(tc.expectedKeywords, response);
      r0.(response := Some(response), toolsUsed := tools, toolCalled := toolCalled,
          finalAnswerCalled := final, steps := StepCount(events), correctTool := correctTool,
          responseCorrect := responseCorrect,
          success := toolCalled && correctTool && final && responseCorrect)
  }

  /** `evaluate_single_test(agent, test_case, agent_type)` with the agent's run given. */
  method EvaluateSingleTest(tc: TestCase, agentType: string, run: AgentRun) returns (result: TestResult)
    ensures result == Evaluated(tc, agentType, run)
  {
    result := InitialResult(tc, agentType);
    if run.Raised? {
      result := result.(error := Some(run.message));
      return;
    }
    var toolsUsed, finalAnswerCalled, stepsCount := AnalyzeStreamedSteps(run.events, agentType);
    var response := run.response;
    var toolCalled := |toolsUsed| > 0;
    var expectedTool, expectedCalls := tc.expectedTool, tc.expectedToolCalls;
    var correctTool: bool;
    if expectedTool == Some(MultipleTools) {
      correctTool := |toolsUsed| >= (if CallsGiven(expectedCalls) then expectedCalls.value else 1);
    } else if expectedTool.Some? && expectedTool.value != [] {
      var count := Count(toolsUsed, expectedTool.value);
      correctTool := if CallsGiven(expectedCalls) then count >= expectedCalls.value else count > 0;
    } else {
      correctTool := toolCalled;
    }
    assert correctTool == CorrectTool(expectedTool, expectedCalls, toolsUsed);
    var responseCorrect: bool;
    var expectedKeywords := tc.expectedKeywords;
    if expectedKeywords != [] {
      var responseLower := Lower(response);
      responseCorrect := AnyKeyword(expectedKeywords, responseLower);
    } else {
      responseCorrect := true;
    }
    var success := toolCalled && correctTool && finalAnswerCalled && responseCorrect;
    result := result.(response := Some(response), toolsUsed := toolsUsed, toolCalled := toolCalled,
                      finalAnswerCalled := finalAnswerCalled, steps := stepsCount,
                      correctTool := correctTool, responseCorrect := responseCorrect, success := success);
  }

  /**
   * A successful test raised nothing, used a tool, gave a final answer (so took at
   * least one step), chose its tools correctly and answered with a keyword; its tools
   * never include `final_answer`.
   */
  lemma EvaluatedSuccess(tc: TestCase, agentType: string, run: AgentRun)
    requires Evaluated(tc, agentType, run).success
    ensures var r := Evaluated(tc, agentType, run);
      && run.Completed? && r.error.None? && r.response == Some(run.response)
      && |r.toolsUsed| > 0 && r.finalAnswerCalled && r.steps >= 1
      && r.correctTool && r.responseCorrect
      && FinalAnswerName !in r.toolsUsed
  {
    NoFinalAnswerInStreamTools(run.events, agentType);
    FinalAnswerTakesAStep(run.events, agentType);
  }

  /** A successful test that expected a named tool used that tool. */
  lemma EvaluatedSuccessUsedTool(tc: TestCase, agentType: string, run: AgentRun)
    requires NamedTool(tc.expectedTool) && (tc.expectedToolCalls.None? || tc.expectedToolCalls.value >= 0)
    requires Evaluated(tc, agentType, run).success
    ensures tc.expectedTool.value in Evaluated(tc, agentType, run).toolsUsed
  {
    CorrectToolNamed(tc.expectedTool, tc.expectedToolCalls, StreamTools(run.events, agentType));
  }

  /** A run that raised fails with the message as its error and otherwise the initial fields. */
  lemma EvaluatedRaised(tc: TestCase, agentType: string, message: string)
    ensures var r := Evaluated(tc, agentType, Raised(message));
      && !r.success && r.error == Some(message) && r.response.None?
      && r.toolsUsed == [] && r.steps == 0 && r.responseCorrect && !r.toolCalled
  {
  }

  /** A completed run is scored without an error and records what the stream showed. */
  lemma EvaluatedCompleted(tc: TestCase, agentType: string, events: seq<Event>, response: string)
    ensures var r := Evaluated(tc, agentType, Completed(events, response));
      && r.error.None? && r.response == Some(response)
      && r.toolsUsed == StreamTools(events, agentType)
      && r.steps == StepCount(events) && r.steps <= |events|
      && (r.success <==> r.toolCalled && r.correctTool && r.finalAnswerCalled && r.responseCorrect)
      && (r.toolCalled <==> |r.toolsUsed| > 0)
  {
    StepCountBound(events);
  }

  // ---------------------------------------------------------------------------
  // _filter_tests
  // ---------------------------------------------------------------------------

  /** `tc.get("agent_type") in [agent_type, "both"]`. */
  function ForAgent(agentType: string): TestCase -> bool
  {
    (tc: TestCase) => tc.agentType == Some(agentType) || tc.agentType == Some("both")
  }

  function OfDifficulty(difficulty: string): TestCase -> bool
  {
    (tc: TestCase) => tc.difficulty == difficulty
  }

  /** The subset filter is truthy. */
  predicate SubsetGiven(subset: Option<string>)
  {
    subset.Some? && subset.value != []
  }

  /** `_filter_tests(test_cases, agent_type, test_subset)`. */
  function FilterTests(tests: seq<TestCase>, agentType: string, subset: Option<string>): seq<TestCase>
  {
    var forAgent := Filter(tests, ForAgent(agentType));
    if SubsetGiven(subset) then Filter(forAgent, OfDifficulty(subset.value)) else forAgent
  }

  /**
   * A test is run exactly when it is one of the test cases, is meant for this agent
   * type or for both, and has the requested difficulty when one is given.
   */
  lemma FilterTestsMembers(tests: seq<TestCase>, agentType: string, subset: Option<string>, tc: TestCase)
    ensures tc in FilterTests(tests, agentType, subset) <==>
      && tc in tests
      && (tc.agentType == Some(agentType) || tc.agentType == Some("both"))
      && (SubsetGiven(subset) ==> tc.difficulty == subset.value)
  {
    var forAgent := Filter(tests, ForAgent(agentType));
    FilterMembers(tests, ForAgent(agentType), tc);
    if SubsetGiven(subset) {
      FilterMembers(forAgent, OfDifficulty(subset.value), tc);
    }
  }

  /** The tests keep their dataset order: filtering distributes over concatenation. */
  lemma FilterTestsConcat(a: seq<TestCase>, b: seq<TestCase>, agentType: string, subset: Option<string>)
    ensures FilterTests(a + b, agentType, subset) == FilterTests(a, agentType, subset) + FilterTests(b, agentType, subset)
  {
    FilterConcat(a, b, ForAgent(agentType));
    if SubsetGiven(subset) {
      FilterConcat(Filter(a, ForAgent(agentType)), Filter(b, ForAgent(agentType)), OfDifficulty(subset.value));
    }
  }

  /** Filtering the chosen tests again chooses all of them. */
  lemma FilterTestsIdempotent(tests: seq<TestCase>, agentType: string, subset: Option<string>)
    ensures var r := FilterTests(tests, agentType, subset);
      FilterTests(r, agentType, subset) == r
  {
    var r := FilterTests(tests, agentType, subset);
    forall k | 0 <= k < |r|
      ensures ForAgent(agentType)(r[k])
      ensures SubsetGiven(subset) ==> OfDifficulty(subset.value)(r[k])
    {
      FilterTestsMembers(tests, agentType, subset, r[k]);
    }
    FilterAll(r, ForAgent(agentType));
    if SubsetGiven(subset) {
      FilterAll(r, OfDifficulty(subset.value));
    }
  }

  // ---------------------------------------------------------------------------
  // The end of run_evaluation
  // ---------------------------------------------------------------------------

  /** The fields the run's end adds to one result. */
  function Stamped(result: TestResult, runId: string, index: nat, traceData: seq<Trace>, enableOtel: bool): TestResult
  {
    result.(runId := Some(runId), testIndex := Some(index),
            enhancedTraceInfo := if enableOtel then Some(TraceInfoOf(traceData, result.testId)) else result.enhancedTraceInfo)
  }

  /** The number of results in the agent types before `g`. */
  function Offset(groups: seq<seq<TestResult>>, g: nat): nat
    requires g <= |groups|
  {
    |Flatten(groups[..g])|
  }

  /**
   * The stamping loop over `all_results.items()`: the result lists of the agent
   * types in order (`tool`, then `code`).
   */
  method StampResults(groups: seq<seq<TestResult>>, runId: string, traceData: seq<Trace>, enableOtel: bool)
    returns (stamped: seq<seq<TestResult>>)
    ensures |stamped| == |groups|
    ensures forall g :: 0 <= g < |groups| ==> |stamped[g]| == |groups[g]|
    ensures forall g, i :: 0 <= g < |groups| && 0 <= i < |groups[g]| ==>
      stamped[g][i] == Stamped(groups[g][i], runId, Offset(groups, g) + i, traceData, enableOtel)
  {
    stamped := [];
    var testIndex := 0;
    for g := 0 to |groups|
      invariant |stamped| == g
      invariant testIndex == Offset(groups, g)
      invariant forall h :: 0 <= h < g ==> |stamped[h]| == |groups[h]|
      invariant forall h, i :: 0 <= h < g && 0 <= i < |groups[h]| ==>
        stamped[h][i] == Stamped(groups[h][i], runId, Offset(groups, h) + i, traceData, enableOtel)
    {
      var results := groups[g];
      var out: seq<TestResult> := [];
      for i := 0 to |results|
        invariant |out| == i
        invariant testIndex == Offset(groups, g) + i
        invariant forall j :: 0 <= j < i ==>
          out[j] == Stamped(results[j], runId, Offset(groups, g) + j, traceData, enableOtel)
      {
        var result := results[i];
        result := result.(runId := Some(runId));
        result := result.(testIndex := Some(testIndex));
        testIndex := testIndex + 1;
        if enableOtel {
          var info := CreateEnhancedTraceInfo(traceData, result.testId);
          result := result.(enhancedTraceInfo := Some(info));
        }
        out := out + [result];
      }
      OffsetStep(groups, g);
      stamped := stamped + [out];
    }
  }

  lemma OffsetStep(groups: seq<seq<TestResult>>, g: nat)
    requires g < |groups|
    ensures Offset(groups, g + 1) == Offset(groups, g) + |groups[g]|
  {
    assert groups[..g + 1][..g] == groups[..g];
  }

  /** Lists of the same lengths flatten to the same length. */
  lemma {:induction false} FlattenLengths(a: seq<seq<TestResult>>, b: seq<seq<TestResult>>)
    requires |a| == |b| && forall g :: 0 <= g < |a| ==> |a[g]| == |b[g]|
    ensures |Flatten(a)| == |Flatten(b)|
    decreases |a|
  {
    if a != [] {
      FlattenLengths(a[..|a| - 1], b[..|b| - 1]);
    }
  }

  /** Lists of lists of the same shape have the same offsets. */
  lemma SameOffsets(a: seq<seq<TestResult>>, b: seq<seq<TestResult>>, g: nat)
    requires |a| == |b| && forall h :: 0 <= h < |a| ==> |a[h]| == |b[h]|
    requires g <= |a|
    ensures Offset(a, g) == Offset(b, g)
  {
    assert forall h :: 0 <= h < g ==> a[..g][h] == a[h] && b[..g][h] == b[h];
    FlattenLengths(a[..g], b[..g]);
  }

  /** Each result's index is its position among all results, across agent types. */
  predicate Indexed(groups: seq<seq<TestResult>>)
  {
    forall g, i :: 0 <= g < |groups| && 0 <= i < |groups[g]| ==>
      groups[g][i].testIndex == Some(Offset(groups, g) + i)
  }

  /** Indexed lists flatten to a list whose `k`-th result has index `k`. */
  lemma {:induction false} IndexedFlatten(groups: seq<seq<TestResult>>)
    requires Indexed(groups)
    ensures forall k :: 0 <= k < |Flatten(groups)| ==> Flatten(groups)[k].testIndex == Some(k)
    decreases |groups|
  {
    if groups != [] {
      var n := |groups| - 1;
      var init: seq<seq<TestResult>> := groups[..n];
      forall g: int, i: int | 0 <= g < |init| && 0 <= i < |init[g]|
        ensures init[g][i].testIndex == Some(Offset(init, g) + i)
      {
        assert init[..g] == groups[..g];
        assert init[g] == groups[g];
      }
      IndexedFlatten(init);
      assert Flatten(groups) == Flatten(init) + groups[n];
      forall k | |Flatten(init)| <= k < |Flatten(groups)|
        ensures Flatten(groups)[k].testIndex == Some(k)
      {
        assert Flatten(groups)[k] == groups[n][k - |Flatten(init)|];
      }
    }
  }

  /** The stamped lists are indexed by position. */
  lemma StampedIndexed(groups: seq<seq<TestResult>>, stamped: seq<seq<TestResult>>, runId: string,
                       traceData: seq<Trace>, enableOtel: bool)
    requires |stamped| == |groups|
    requires forall g :: 0 <= g < |groups| ==> |stamped[g]| == |groups[g]|
    requires forall g, i :: 0 <= g < |groups| && 0 <= i < |groups[g]| ==>
      stamped[g][i] == Stamped(groups[g][i], runId, Offset(groups, g) + i, traceData, enableOtel)
    ensures Indexed(stamped)
  {
    forall g: int, i: int | 0 <= g < |stamped| && 0 <= i < |stamped[g]|
      ensures stamped[g][i].testIndex == Some(Offset(stamped, g) + i)
    {
      SameOffsets(stamped, groups, g);
      assert stamped[g][i] == Stamped(groups[g][i], runId, Offset(groups, g) + i, traceData, enableOtel);
    }
  }

  /**
   * After stamping, the results taken in agent-type order carry the indices
   * 0, 1, 2, … and there are as many of them as before.
   */
  lemma StampedIndices(groups: seq<seq<TestResult>>, stamped: seq<seq<TestResult>>, runId: string,
                       traceData: seq<Trace>, enableOtel: bool)
    requires |stamped| == |groups|
    requires forall g :: 0 <= g < |groups| ==> |stamped[g]| == |groups[g]|
    requires forall g, i :: 0 <= g < |groups| && 0 <= i < |groups[g]| ==>
      stamped[g][i] == Stamped(groups[g][i], runId, Offset(groups, g) + i, traceData, enableOtel)
    ensures forall k :: 0 <= k < |Flatten(stamped)| ==> Flatten(stamped)[k].testIndex == Some(k)
    ensures |Flatten(stamped)| == |Flatten(groups)|
  {
    StampedIndexed(groups, stamped, runId, traceData, enableOtel);
    IndexedFlatten(stamped);
    FlattenLengths(stamped, groups);
  }
}
