/**
 * The agent tools that are pure enough to state: the fixed tool names, the weather
 * lookup table with its default answer, and the time tool with the clock as a parameter.
 */
module Tools {
  import opened Text
  import Clock

  const WeatherToolName: string := "get_weather"
  const CalculatorToolName: string := "calculator"
  const TimeToolName: string := "get_current_time"
  const SearchToolName: string := "web_search"

  /** The built-in tools in the order the agents are given them. */
  const ToolNames: seq<string> := [WeatherToolName, CalculatorToolName, TimeToolName, SearchToolName]

  /** The weather tool's fixed answers. */
  const WeatherTable: map<string, string> := map[
    "Paris, France" := "20°C, Partly Cloudy",
    "London, UK" := "15°C, Rainy",
    "New York, USA" := "25°C, Sunny",
    "Tokyo, Japan" := "18°C, Clear",
    "Sydney, Australia" := "22°C, Windy"
  ]

  const DefaultPrefix: string := "Weather data for "
  const DefaultSuffix: string := ": 22°C, Clear"

  /** `WeatherTool.forward`: a table lookup with a default built from the location. */
  function WeatherForward(location: string): (r: string)
  {
    if location in WeatherTable then WeatherTable[location]
    else DefaultPrefix + location + DefaultSuffix
  }

  /** Each known location gets its fixed answer. */
  lemma WeatherForwardKnown()
    ensures WeatherForward("Paris, France") == "20°C, Partly Cloudy"
    ensures WeatherForward("London, UK") == "15°C, Rainy"
    ensures WeatherForward("New York, USA") == "25°C, Sunny"
    ensures WeatherForward("Tokyo, Japan") == "18°C, Clear"
    ensures WeatherForward("Sydney, Australia") == "22°C, Windy"
  {
  }

  /**
   * Any other location is answered with the default, which names the location and
   * reports 22°C and clear skies; the location can be read back from the answer.
   */
  lemma WeatherForwardUnknown(location: string)
    requires location !in WeatherTable
    ensures WeatherForward(location) == DefaultPrefix + location + DefaultSuffix
    ensures Contains(WeatherForward(location), location)
    ensures Contains(WeatherForward(location), "22°C") && Contains(WeatherForward(location), "Clear")
    ensures WeatherForward(location)[|DefaultPrefix|..|WeatherForward(location)| - |DefaultSuffix|] == location
  {
    var r := WeatherForward(location);
    var p := |DefaultPrefix|;
    assert r[p..p + |location|] == location;
    ContainsSlice(r, p, p + |location|);
    assert r[p + |location| + 2..p + |location| + 6] == "22°C";
    ContainsSlice(r, p + |location| + 2, p + |location| + 6);
    assert r[p + |location| + 8..p + |location| + 13] == "Clear";
    ContainsSlice(r, p + |location| + 8, p + |location| + 13);
  }

  /** Distinct unknown locations get distinct answers. */
  lemma WeatherForwardInjective(a: string, b: string)
    requires a !in WeatherTable && b !in WeatherTable && a != b
    ensures WeatherForward(a) != WeatherForward(b)
  {
    WeatherForwardUnknown(a);
    WeatherForwardUnknown(b);
  }

  /** `TimeTool.forward(timezone)`, with the current time `now` as a parameter. */
  function TimeForward(now: Clock.DateTime, timezone: string := "UTC"): (r: string)
  {
    "Current time in " + timezone + ": " + Clock.Display(now)
  }

  /** The answer opens with the timezone and ends with the 19-character `YYYY-MM-DD HH:MM:SS`. */
  lemma TimeForwardShape(now: Clock.DateTime, timezone: string)
    requires Clock.Valid(now)
    ensures var r := TimeForward(now, timezone);
      && |r| == 16 + |timezone| + 2 + 19
      && r[..16 + |timezone|] == "Current time in " + timezone
      && r[16 + |timezone|..16 + |timezone| + 2] == ": "
      && Contains(r, "Current time in " + timezone)
      && r[|r| - 19..] == Clock.Display(now)
      && Contains(r, "-") && Contains(r, ":")
  {
    var r := TimeForward(now, timezone);
    Clock.DisplayShape(now);
    var k := 16 + |timezone|;
    assert r[..k] == "Current time in " + timezone;
    ContainsSlice(r, 0, k);
    assert r[k + 2..] == Clock.Display(now);
    assert r[k..k + 2] == ": ";
    assert r[k + 2 + 4..k + 2 + 5] == "-";
    ContainsSlice(r, k + 6, k + 7);
    assert r[k..k + 1] == ":";
    ContainsSlice(r, k, k + 1);
  }
}
