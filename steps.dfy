/**
 * How the evaluation reads an agent's run: which tools it used, whether it gave a
 * final answer and how many steps it took (`extract_tools_from_code`,
 * `extract_tools_from_action_step`, `is_final_answer_called_in_action_step` and
 * `analyze_streamed_steps` in smoltrace/core.py). The agent's stream is a sequence
 * of events; the regular expressions are written out as string predicates.
 */
module Steps {
  import opened Wrappers
  import opened Text
  import opened Seqs
  import Tools

  /** A tool call recorded in an action step; `name` is absent when the object has none. */
  datatype ToolCall = ToolCall(name: Option<string>)

  /** An action step: its tool calls and, for code agents, the code it ran. */
  datatype ActionStep = ActionStep(toolCalls: seq<ToolCall>, code: Option<string>)

  /** What the agent's stream yields; anything that is not a step is `Other`. */
  datatype Event = Action(step: ActionStep) | FinalAnswer | Planning | Other

  const FinalAnswerName: string := "final_answer"

  /** The names in the four patterns `name\s*\(`, in the order they are scanned. */
  const CodePatternNames: seq<string> := ["get_weather", "calculator", "get_current_time", "web_search"]

  /** The code patterns look for exactly the built-in tools, in the same order. */
  lemma CodePatternsAreToolNames()
    ensures CodePatternNames == Tools.ToolNames
  {
  }

  // ---------------------------------------------------------------------------
  // The pattern `name\s*\(`
  // ---------------------------------------------------------------------------

  /** From `j` on: whitespace, then `(`; the index just after the `(`. */
  function ParenEnd(code: string, j: nat): (r: Option<nat>)
    ensures r.Some? ==> j < r.value <= |code| && code[r.value - 1] == '('
    ensures r.Some? ==> forall k :: j <= k < r.value - 1 ==> IsSpace(code[k])
    decreases |code| - j
  {
    if j >= |code| then None
    else if code[j] == '(' then Some(j + 1)
    else if IsSpace(code[j]) then ParenEnd(code, j + 1)
    else None
  }

  /** Where the match of `name\s*\(` that starts at `i` ends, if there is one. */
  function MatchEnd(code: string, name: string, i: nat): (r: Option<nat>)
    ensures r.Some? ==> OccursAt(code, name, i) && i + |name| < r.value <= |code|
    ensures r.Some? ==> code[r.value - 1] == '('
    ensures r.Some? ==> forall k :: i + |name| <= k < r.value - 1 ==> IsSpace(code[k])
  {
    if OccursAt(code, name, i) then ParenEnd(code, i + |name|) else None
  }

  /**
   * `re.findall(name + r"\s*\(", code)` scanned from index `i`: the start of each match,
   * leftmost first, resuming after the end of the previous match.
   */
  function FindAllFrom(code: string, name: string, i: nat): (r: seq<nat>)
    ensures forall k :: 0 <= k < |r| ==> i <= r[k] && MatchEnd(code, name, r[k]).Some?
    ensures forall k, l :: 0 <= k < l < |r| ==> r[k] < r[l]
    decreases |code| - i
  {
    if i >= |code| then []
    else
      match MatchEnd(code, name, i)
      case Some(e) => [i] + FindAllFrom(code, name, e)
      case None => FindAllFrom(code, name, i + 1)
  }

  function FindAll(code: string, name: string): seq<nat>
  {
    FindAllFrom(code, name, 0)
  }

  /** A literal tool name: non-empty, with no whitespace and no `(`. */
  predicate PlainName(name: string)
  {
    |name| >= 1 && forall k :: 0 <= k < |name| ==> !IsSpace(name[k]) && name[k] != '('
  }

  /** Matches of a plain name cannot overlap. */
  lemma NoMatchInside(code: string, name: string, p: nat, e: nat, i: nat)
    requires PlainName(name) && MatchEnd(code, name, p) == Some(e) && p < i < e
    ensures MatchEnd(code, name, i).None?
  {
    var q := if i < p + |name| then p + |name| else i;
    assert i <= q < i + |name| && q < e;
    assert IsSpace(code[q]) || code[q] == '(' by {
      assert q < e - 1 ==> IsSpace(code[q]);
    }
    if i + |name| <= |code| {
      assert code[i..i + |name|][q - i] == code[q];
      assert code[i..i + |name|] != name;
    }
  }

  /** Scanning from `j` finds exactly the match positions at or after `j`. */
  lemma {:induction false} FindAllFromExact(code: string, name: string, j: nat, i: nat)
    requires PlainName(name)
    ensures i in FindAllFrom(code, name, j) <==> j <= i && MatchEnd(code, name, i).Some?
    decreases |code| - j
  {
    if j < |code| {
      match MatchEnd(code, name, j)
      case Some(e) =>
        FindAllFromExact(code, name, e, i);
        if j < i < e {
          NoMatchInside(code, name, j, e, i);
        }
      case None =>
        FindAllFromExact(code, name, j + 1, i);
    } else if MatchEnd(code, name, i).Some? {
      assert i < |code|;
    }
  }

  /**
   * For a plain name, `findall` yields every position where `name\s*\(` matches, in
   * increasing order: its length is the number of matches in the code.
   */
  lemma FindAllExact(code: string, name: string)
    requires PlainName(name)
    ensures forall i: nat :: i in FindAll(code, name) <==> MatchEnd(code, name, i).Some?
  {
    forall i: nat ensures i in FindAll(code, name) <==> MatchEnd(code, name, i).Some? {
      FindAllFromExact(code, name, 0, i);
    }
  }

  /** The four pattern names are plain, so their matches are counted exactly. */
  lemma CodePatternNamesPlain()
    ensures forall n :: n in CodePatternNames ==> PlainName(n)
  {
    forall n | n in CodePatternNames ensures PlainName(n) {
      assert forall k :: 0 <= k < |n| ==> IsWordChar(n[k]);
    }
  }

  // ---------------------------------------------------------------------------
  // extract_tools_from_code
  // ---------------------------------------------------------------------------

  /** One entry per match, grouped by pattern in pattern order. */
  function CodeTools(code: string, names: seq<string>): (r: seq<string>)
    decreases |names|
  {
    if names == [] then []
    else
      var last := names[|names| - 1];
      CodeTools(code, names[..|names| - 1]) + Repeat(last, |FindAll(code, last)|)
  }

  /** `extract_tools_from_code`: the four patterns in turn, one name per match. */
  method ExtractToolsFromCode(code: string) returns (toolsFound: seq<string>)
    ensures toolsFound == CodeTools(code, CodePatternNames)
  {
    toolsFound := [];
    var patterns := CodePatternNames;
    for p := 0 to |patterns|
      invariant toolsFound == CodeTools(code, patterns[..p])
    {
      var name := patterns[p];
      var matches := FindAll(code, name);
      for m := 0 to |matches|
        invariant toolsFound == CodeTools(code, patterns[..p]) + Repeat(name, m)
      {
        toolsFound := toolsFound + [name];
      }
      assert patterns[..p + 1][..p] == patterns[..p];
    }
    assert patterns[..|patterns|] == patterns;
  }

  /** Only the scanned names are ever reported. */
  lemma {:induction false} CodeToolsMembers(code: string, names: seq<string>)
    ensures forall t :: t in CodeTools(code, names) ==> t in names
    decreases |names|
  {
    if names != [] {
      var init := names[..|names| - 1];
      CodeToolsMembers(code, init);
      assert forall t :: t in init ==> t in names;
    }
  }

  /** With distinct names, each name is reported once per match of its pattern. */
  lemma {:induction false} CodeToolsCount(code: string, names: seq<string>, n: string)
    requires forall i, j :: 0 <= i < j < |names| ==> names[i] != names[j]
    ensures Count(CodeTools(code, names), n) == if n in names then |FindAll(code, n)| else 0
    decreases |names|
  {
    if names != [] {
      var init, last := names[..|names| - 1], names[|names| - 1];
      CodeToolsCount(code, init, n);
      CountConcat(CodeTools(code, init), Repeat(last, |FindAll(code, last)|), n);
      CountRepeat(last, |FindAll(code, last)|, n);
      assert names == init + [last];
      if n == last {
        assert n !in init by {
          forall i | 0 <= i < |init| ensures init[i] != n {
            assert names[i] != names[|names| - 1];
          }
        }
      }
    }
  }

  /** The code patterns' report: every entry is a built-in tool, and counts are exact. */
  lemma ExtractedCodeTools(code: string)
    ensures forall t :: t in CodeTools(code, CodePatternNames) ==> t in Tools.ToolNames
    ensures forall n :: n in CodePatternNames ==>
      Count(CodeTools(code, CodePatternNames), n) == |FindAll(code, n)|
    ensures FinalAnswerName !in CodeTools(code, CodePatternNames)
  {
    CodeToolsMembers(code, CodePatternNames);
    forall n | n in CodePatternNames
      ensures Count(CodeTools(code, CodePatternNames), n) == |FindAll(code, n)|
    {
      CodeToolsCount(code, CodePatternNames, n);
    }
  }

  // ---------------------------------------------------------------------------
  // extract_tools_from_action_step
  // ---------------------------------------------------------------------------

  /** The named tool calls other than `final_answer`, in order. */
  function CallNames(calls: seq<ToolCall>): (r: seq<string>)
    decreases |calls|
  {
    if calls == [] then []
    else
      var last := calls[|calls| - 1];
      CallNames(calls[..|calls| - 1])
        + (if last.name.Some? && last.name.value != FinalAnswerName then [last.name.value] else [])
  }

  /** A name is reported exactly when some call carries it and it is not `final_answer`. */
  lemma {:induction false} CallNamesMembers(calls: seq<ToolCall>, t: string)
    ensures t in CallNames(calls) <==>
      t != FinalAnswerName && exists k :: 0 <= k < |calls| && calls[k].name == Some(t)
    decreases |calls|
  {
    if calls != [] {
      var init := calls[..|calls| - 1];
      CallNamesMembers(init, t);
      assert forall k :: 0 <= k < |init| ==> init[k] == calls[k];
      if exists k :: 0 <= k < |calls| && calls[k].name == Some(t) {
        var k :| 0 <= k < |calls| && calls[k].name == Some(t);
        if k < |init| {
          assert init[k].name == Some(t);
        }
      }
    }
  }

  /** `event.code` is present and not empty. */
  predicate HasCode(step: ActionStep)
  {
    step.code.Some? && step.code.value != []
  }

  /** What `extract_tools_from_action_step` returns for one step. */
  function ActionTools(step: ActionStep, agentType: string): seq<string>
  {
    CallNames(step.toolCalls)
      + (if agentType == "code" && HasCode(step) then CodeTools(step.code.value, CodePatternNames) else [])
  }

  /** `extract_tools_from_action_step`: call names first, then (code agents) the code's tools. */
  method ExtractToolsFromActionStep(step: ActionStep, agentType: string) returns (tools: seq<string>)
    ensures tools == ActionTools(step, agentType)
  {
    tools := [];
    var calls := step.toolCalls;
    for k := 0 to |calls|
      invariant tools == CallNames(calls[..k])
    {
      assert calls[..k + 1][..k] == calls[..k];
      if calls[k].name.Some? {
        var toolName := calls[k].name.value;
        if toolName != FinalAnswerName {
          tools := tools + [toolName];
        }
      }
    }
    assert calls[..|calls|] == calls;
    if agentType == "code" && HasCode(step) {
      var codeTools := ExtractToolsFromCode(step.code.value);
      tools := tools + codeTools;
    }
  }

  /** `final_answer` is never reported as a tool. */
  lemma NoFinalAnswerInActionTools(step: ActionStep, agentType: string)
    ensures FinalAnswerName !in ActionTools(step, agentType)
  {
    CallNamesMembers(step.toolCalls, FinalAnswerName);
    if agentType == "code" && HasCode(step) {
      ExtractedCodeTools(step.code.value);
    }
  }

  // ---------------------------------------------------------------------------
  // is_final_answer_called_in_action_step
  // ---------------------------------------------------------------------------

  function AnyFinalAnswerCall(calls: seq<ToolCall>): (r: bool)
    ensures r <==> exists k :: 0 <= k < |calls| && calls[k].name == Some(FinalAnswerName)
    decreases |calls|
  {
    if calls == [] then false
    else if calls[0].name == Some(FinalAnswerName) then true
    else
      var rest := AnyFinalAnswerCall(calls[1..]);
      assert forall k :: 1 <= k < |calls| ==> calls[k] == calls[1..][k - 1];
      rest
  }

  /** `\bfinal_answer\s*\(` matches at index `i`. */
  predicate FinalAnswerAt(code: string, i: nat)
  {
    MatchEnd(code, FinalAnswerName, i).Some? && (i == 0 || !IsWordChar(code[i - 1]))
  }

  /** `re.search` from index `i`: the first matching index, if any. */
  function SearchFinalAnswer(code: string, i: nat): (r: bool)
    ensures r <==> exists j :: i <= j < |code| && FinalAnswerAt(code, j)
    decreases |code| - i
  {
    if i >= |code| then false
    else if FinalAnswerAt(code, i) then true
    else SearchFinalAnswer(code, i + 1)
  }

  /** `is_final_answer_called_in_action_step`. */
  function IsFinalAnswerCalledInActionStep(step: ActionStep, agentType: string): (r: bool)
    ensures r <==>
      || (exists k :: 0 <= k < |step.toolCalls| && step.toolCalls[k].name == Some(FinalAnswerName))
      || (agentType == "code" && HasCode(step)
          && exists j :: 0 <= j < |step.code.value| && FinalAnswerAt(step.code.value, j))
  {
    if AnyFinalAnswerCall(step.toolCalls) then true
    else if agentType == "code" && HasCode(step) then SearchFinalAnswer(step.code.value, 0)
    else false
  }

  // ---------------------------------------------------------------------------
  // analyze_streamed_steps
  // ---------------------------------------------------------------------------

  /** The event shows that the agent answered. */
  predicate SignalsFinalAnswer(e: Event, agentType: string)
  {
    e.FinalAnswer? || (e.Action? && IsFinalAnswerCalledInActionStep(e.step, agentType))
  }

  /** The per-action extractions of a stream, concatenated in order. */
  function StreamTools(events: seq<Event>, agentType: string): seq<string>
    decreases |events|
  {
    if events == [] then []
    else
      var last := events[|events| - 1];
      StreamTools(events[..|events| - 1], agentType)
        + (if last.Action? then ActionTools(last.step, agentType) else [])
  }

  /** The number of action, final-answer and planning events. */
  function StepCount(events: seq<Event>): nat
    decreases |events|
  {
    if events == [] then 0
    else StepCount(events[..|events| - 1]) + (if events[|events| - 1].Other? then 0 else 1)
  }

  /** `analyze_streamed_steps` over the events the agent's stream yields. */
  method AnalyzeStreamedSteps(events: seq<Event>, agentType: string)
    returns (toolsUsed: seq<string>, finalAnswerCalled: bool, stepsCount: nat)
    ensures toolsUsed == StreamTools(events, agentType)
    ensures finalAnswerCalled <==> exists i :: 0 <= i < |events| && SignalsFinalAnswer(events[i], agentType)
    ensures stepsCount == StepCount(events)
  {
    toolsUsed, finalAnswerCalled, stepsCount := [], false, 0;
    for i := 0 to |events|
      invariant toolsUsed == StreamTools(events[..i], agentType)
      invariant finalAnswerCalled <==> exists j :: 0 <= j < i && SignalsFinalAnswer(events[j], agentType)
      invariant stepsCount == StepCount(events[..i])
    {
      assert events[..i + 1][..i] == events[..i];
      match events[i]
      case Action(step) =>
        stepsCount := stepsCount + 1;
        var tools := ExtractToolsFromActionStep(step, agentType);
        toolsUsed := toolsUsed + tools;
        if IsFinalAnswerCalledInActionStep(step, agentType) {
          finalAnswerCalled := true;
        }
      case FinalAnswer =>
        finalAnswerCalled := true;
        stepsCount := stepsCount + 1;
      case Planning =>
        stepsCount := stepsCount + 1;
      case Other =>
    }
    assert events[..|events|] == events;
  }

  /** A stream that signals a final answer counts at least one step. */
  lemma {:induction false} FinalAnswerTakesAStep(events: seq<Event>, agentType: string)
    requires exists i :: 0 <= i < |events| && SignalsFinalAnswer(events[i], agentType)
    ensures StepCount(events) >= 1
    decreases |events|
  {
    var last := events[|events| - 1];
    if !SignalsFinalAnswer(last, agentType) {
      var init := events[..|events| - 1];
      var i :| 0 <= i < |events| && SignalsFinalAnswer(events[i], agentType);
      assert init[i] == events[i];
      FinalAnswerTakesAStep(init, agentType);
    }
  }

  /** The tools of two stretches of a stream are those of the first, then the second. */
  lemma {:induction false} StreamToolsConcat(a: seq<Event>, b: seq<Event>, agentType: string)
    ensures StreamTools(a + b, agentType) == StreamTools(a, agentType) + StreamTools(b, agentType)
    decreases |b|
  {
    if b == [] {
      assert a + b == a;
    } else {
      var init := b[..|b| - 1];
      assert (a + b)[..|a + b| - 1] == a + init;
      StreamToolsConcat(a, init, agentType);
    }
  }

  /** No stream ever reports `final_answer` as a tool. */
  lemma {:induction false} NoFinalAnswerInStreamTools(events: seq<Event>, agentType: string)
    ensures FinalAnswerName !in StreamTools(events, agentType)
    decreases |events|
  {
    if events != [] {
      NoFinalAnswerInStreamTools(events[..|events| - 1], agentType);
      var last := events[|events| - 1];
      if last.Action? {
        NoFinalAnswerInActionTools(last.step, agentType);
      }
    }
  }

  /** Every event but `Other` is a step: the count reaches `|events|` exactly when there is none. */
  lemma {:induction false} StepCountBound(events: seq<Event>)
    ensures StepCount(events) <= |events|
    ensures StepCount(events) == |events| <==> forall i :: 0 <= i < |events| ==> !events[i].Other?
    decreases |events|
  {
    if events != [] {
      var init := events[..|events| - 1];
      StepCountBound(init);
      assert forall i :: 0 <= i < |init| ==> init[i] == events[i];
    }
  }

  /** Steps add up across stretches of a stream. */
  lemma {:induction false} StepCountConcat(a: seq<Event>, b: seq<Event>)
    ensures StepCount(a + b) == StepCount(a) + StepCount(b)
    decreases |b|
  {
    if b == [] {
      assert a + b == a;
    } else {
      var init := b[..|b| - 1];
      assert (a + b)[..|a + b| - 1] == a + init;
      StepCountConcat(a, init);
    }
  }
}
