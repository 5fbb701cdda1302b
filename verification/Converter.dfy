/** The converter as the SDK runs it: build the record piece by piece, validate it, keep or drop it. */
module Converter {
  import opened Sequences
  import opened Decimals
  import opened Names
  import opened Wire
  import opened Attribution
  import opened AttributionContract
  import Contract
  import Timestamps

  /** None exactly for events that measure nothing or cannot be represented. */
  method ToEventV2(read: Reader, e: Event) returns (r: Option<EventV2>)
    ensures r == Convert(read, e)
    ensures r.Some? <==> ComponentAndUsage(read, e).Some? && Sendable(ComponentAndUsage(read, e).value)
                         && Representable(e, ComponentAndUsage(read, e).value)
  {
    hide *;
    ConvertsTo(read, e);
    ConvertsIff(read, e);
    var parts := ComponentAndUsage(read, e);
    if parts.None? { return None; }
    SendableForm(parts.value);
    var d := BuildDraft(e, parts.value);
    var success, issues := Contract.ValidateEventV2(EventJson(d));
    r := if success then Some(d) else None;
  }

  method BuildDraft(e: Event, p: Parts) returns (d: EventV2)
    requires Sendable(p)
    ensures WellFormed(UsageOf(p)) && d == Draft(e, p)
  {
    hide Timestamps.Format, ProviderFor, ResourceFor, EvidenceFor;
    var usage := p.usage;
    if |usage| == 0 { usage := AppendUsage(usage, "request_count", ONE); }
    var lines, hasTime := WriteLines(usage);
    var occurred := Timestamps.Format(Micros(e.at));
    d := EventV2("2", UuidText(e.id), UuidText(e.task), occurred, occurred, p.component, ProviderFor(e), ResourceFor(e),
                 "final", 1, None, lines, EvidenceFor(e), "");
    if e.isRetry && e.retryOf.Some? { d := d.(retryOf := UuidText(e.retryOf.value)); }
    if hasTime || Positive(p.duration) {
      var offset := if Positive(p.duration) then Offset(p.duration) else 0;
      d := d.(usagePeriod := Some(UsagePeriod(Timestamps.Format(Micros(e.at + Wrap(-offset))), occurred)));
    }
  }

  method WriteLines(usage: seq<Measure>) returns (lines: seq<UsageLine>, hasTime: bool)
    requires WellFormed(usage)
    ensures lines == WrittenUsage(usage) && hasTime == MeasuresTime(usage)
  {
    lines := [];
    for i := 0 to |usage|
      invariant lines == WrittenUsage(usage[..i])
    {
      assert usage[..i + 1] == usage[..i] + [usage[i]];
      lines := lines + [WrittenLine(usage[i])];
    }
    assert usage[..|usage|] == usage;
    hasTime := false;
    for i := 0 to |usage|
      invariant hasTime <==> exists j :: 0 <= j < i && HasSuffix(UNIT_BY_METRIC[usage[j].metric], "Seconds")
    {
      if HasSuffix(UNIT_BY_METRIC[usage[i].metric], "Seconds") { hasTime := true; break; }
    }
  }
}
