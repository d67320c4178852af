/**
 * The in-memory span exporter of smoltrace/otel.py: finished spans are turned into
 * dictionaries (`_to_dict`) and appended to a buffer that is handed out whole.
 */
module Spans {
  import opened Wrappers
  import opened Text
  import opened Python

  /**
   * A finished span as the tracing SDK passes it to the exporter. Times are in
   * nanoseconds; an absent or zero time is unset.
   */
  datatype RawSpan = RawSpan(
    traceId: nat,
    spanId: nat,
    parentSpanId: Option<nat>,
    name: string,
    startTime: Option<int>,
    endTime: Option<int>,
    attributes: map<string, PyValue>)

  /** The dictionary `_to_dict` builds for a span (the keys the evaluation reads). */
  datatype Span = Span(
    traceId: string,
    spanId: string,
    parentSpanId: Option<string>,
    name: string,
    startTime: Option<int>,
    endTime: Option<int>,
    durationMs: Option<PyValue>,
    attributes: map<string, PyValue>,
    totalTokens: Option<PyValue>)

  const TokenCountKey: string := "llm.token_count.total"

  /** A timestamp is truthy: present and not zero. */
  predicate IsSet(t: Option<int>)
  {
    t.Some? && t.value != 0
  }

  /** `(end - start) / 1e6` when both times are set, else the integer 0. */
  function DurationMs(start: Option<int>, end: Option<int>): (r: PyValue)
    ensures IsSet(start) && IsSet(end) ==>
      r.PyFloat? && r.r * 1000000.0 == (end.value - start.value) as real
    ensures !(IsSet(start) && IsSet(end)) ==> r == PyInt(0) && !Truthy(r)
  {
    if IsSet(end) && IsSet(start) then PyFloat((end.value - start.value) as real / 1000000.0)
    else PyInt(0)
  }

  /** A span that ends no earlier than it starts has a non-negative duration. */
  lemma DurationNonNegative(start: Option<int>, end: Option<int>)
    requires IsSet(start) && IsSet(end) && start.value <= end.value
    ensures ToFloat(DurationMs(start, end)).Some? && ToFloat(DurationMs(start, end)).value >= 0.0
  {
  }

  /** `_to_dict`: hex ids, the duration rule, the attributes and the copied token count. */
  function ToDict(raw: RawSpan): Span
  {
    Span(
      Hex(raw.traceId),
      Hex(raw.spanId),
      if raw.parentSpanId.Some? then Some(Hex(raw.parentSpanId.value)) else None,
      raw.name,
      raw.startTime,
      raw.endTime,
      Some(DurationMs(raw.startTime, raw.endTime)),
      raw.attributes,
      if TokenCountKey in raw.attributes then Some(raw.attributes[TokenCountKey]) else None)
  }

  /**
   * The dictionary's fields: hex ids that read back as the SDK's ids, a parent id
   * exactly when the span has a parent, the duration rule, the attributes unchanged,
   * and the token total copied exactly when the span has that attribute.
   */
  lemma ToDictFields(raw: RawSpan)
    ensures var r := ToDict(raw);
      && |r.traceId| >= 3 && |r.spanId| >= 3
      && DigitsValue(r.traceId[2..], 16) == Some(raw.traceId)
      && DigitsValue(r.spanId[2..], 16) == Some(raw.spanId)
      && (r.parentSpanId.Some? <==> raw.parentSpanId.Some?)
      && (r.parentSpanId.Some? ==> DigitsValue(r.parentSpanId.value[2..], 16) == Some(raw.parentSpanId.value))
      && r.durationMs == Some(DurationMs(raw.startTime, raw.endTime))
      && r.attributes == raw.attributes
      && (r.totalTokens.Some? <==> TokenCountKey in raw.attributes)
      && (r.totalTokens.Some? ==> r.totalTokens.value == raw.attributes[TokenCountKey])
  {
    HexValue(raw.traceId);
    HexValue(raw.spanId);
    if raw.parentSpanId.Some? {
      HexValue(raw.parentSpanId.value);
    }
  }

  /** Spans get the same trace-id string exactly when they belong to the same trace. */
  lemma TraceIdStringsFaithful(a: RawSpan, b: RawSpan)
    ensures ToDict(a).traceId == ToDict(b).traceId <==> a.traceId == b.traceId
  {
    ToDictFields(a);
    ToDictFields(b);
    if ToDict(a).traceId == ToDict(b).traceId {
      assert ToDict(a).traceId[2..] == ToDict(b).traceId[2..];
    }
  }

  /** The dictionaries of a batch, in order. */
  function ToDicts(batch: seq<RawSpan>): seq<Span>
  {
    seq(|batch|, k requires 0 <= k < |batch| => ToDict(batch[k]))
  }

  /** Exporting two batches one after the other stores what exporting them together would. */
  lemma ToDictsConcat(a: seq<RawSpan>, b: seq<RawSpan>)
    ensures ToDicts(a + b) == ToDicts(a) + ToDicts(b)
  {
    forall k | 0 <= k < |a + b|
      ensures ToDicts(a + b)[k] == (ToDicts(a) + ToDicts(b))[k]
    {
      if k < |a| {
        assert (a + b)[k] == a[k];
      } else {
        assert (a + b)[k] == b[k - |a|];
      }
    }
  }

  /** The dictionaries of the first `k + 1` spans extend those of the first `k`. */
  lemma ToDictsAt(batch: seq<RawSpan>, k: nat)
    requires k < |batch|
    ensures ToDicts(batch[..k + 1]) == ToDicts(batch[..k]) + [ToDict(batch[k])]
  {
    assert batch[..k + 1][..k] == batch[..k];
  }

  datatype SpanExportResult = ExportSuccess | ExportFailure

  /** `InMemorySpanExporter`: an append-only buffer of span dictionaries. */
  class InMemorySpanExporter {
    var spans: seq<Span>

    constructor()
      ensures spans == []
    {
      spans := [];
    }

    /** `export`: appends each span's dictionary in order; never fails. */
    method Export(batch: seq<RawSpan>) returns (r: SpanExportResult)
      modifies this
      ensures spans == old(spans) + ToDicts(batch)
      ensures r == ExportSuccess
    {
      for k := 0 to |batch|
        invariant spans == old(spans) + ToDicts(batch[..k])
      {
        ToDictsAt(batch, k);
        spans := spans + [ToDict(batch[k])];
      }
      assert batch[..|batch|] == batch;
      r := ExportSuccess;
    }

    /** `get_finished_spans`: the whole buffer. */
    method GetFinishedSpans() returns (r: seq<Span>)
      ensures r == spans
    {
      r := spans;
    }
  }
}
